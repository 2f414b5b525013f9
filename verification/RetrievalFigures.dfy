/** What the published retrieval figures count: result places and wanted records, question by question. */
module RetrievalFigures {
  import opened Prelude
  import opened Corpus
  import opened Ranking
  import opened Metrics

  // ---- One result list

  /** The places of a result list that hold a wanted record. */
  ghost function WantedPlaces(returned: seq<Id>, wanted: set<Id>): set<nat> {
    set i: nat | i < |returned| && returned[i] in wanted
  }

  lemma {:induction false} CountIsPlaces(returned: seq<Id>, wanted: set<Id>)
    ensures CountIn(returned, wanted) == |WantedPlaces(returned, wanted)|
  {
    if returned != [] {
      var d := DropLast(returned);
      CountIsPlaces(d, wanted);
      if Last(returned) in wanted {
        assert WantedPlaces(returned, wanted) == WantedPlaces(d, wanted) + {|d|};
      } else {
        assert WantedPlaces(returned, wanted) == WantedPlaces(d, wanted);
      }
    } else {
      assert WantedPlaces(returned, wanted) == {};
    }
  }

  /** The reciprocal rank is one over the number of the first wanted record, and 0 if there is none. */
  lemma ReciprocalRankIs(returned: seq<Id>, wanted: set<Id>, i: nat)
    requires i <= |returned| && forall j :: 0 <= j < i ==> returned[j] !in wanted
    ensures i < |returned| && returned[i] in wanted ==> ReciprocalRank(returned, wanted) * (i + 1) as real == 1.0
    ensures i == |returned| ==> ReciprocalRank(returned, wanted) == 0.0
  {
    FirstIndexIsFirst(returned, wanted);
  }

  // ---- All questions

  /** A place in the result list of a question. */
  datatype Place = Place(question: nat, rank: nat)

  ghost function Shown(qs: seq<Question>, returnedOf: Question -> seq<Id>): set<Place> {
    set n: nat, i: nat | n < |qs| && i < |returnedOf(qs[n])| :: Place(n, i)
  }

  predicate IsExpected(q: Question, id: Id) { id in q.expectedRecordIds }
  predicate IsForbidden(q: Question, id: Id) { id in q.forbiddenRecordIds }

  /** The places that hold a record with the property. */
  ghost function Hits(qs: seq<Question>, returnedOf: Question -> seq<Id>, p: (Question, Id) -> bool): set<Place> {
    set n: nat, i: nat | n < |qs| && i < |returnedOf(qs[n])| && p(qs[n], returnedOf(qs[n])[i]) :: Place(n, i)
  }

  /** What the questions ask for. */
  datatype Wish = Wish(question: nat, record: Id)

  ghost function Wishes(qs: seq<Question>): set<Wish> {
    set n: nat, id | n < |qs| && id in qs[n].expectedRecordIds :: Wish(n, id)
  }

  function RankTotal(qs: seq<Question>, returnedOf: Question -> seq<Id>): real {
    if qs == [] then 0.0
    else RankTotal(DropLast(qs), returnedOf)
         + ReciprocalRank(returnedOf(Last(qs)), Elements(Last(qs).expectedRecordIds))
  }

  ghost function OfQuestion(n: nat, places: set<nat>): set<Place> {
    set i | i in places :: Place(n, i)
  }

  lemma PlacesOfQuestion(n: nat, places: set<nat>)
    ensures |OfQuestion(n, places)| == |places|
  {
    ImageCount(places, i => Place(n, i), OfQuestion(n, places));
  }

  lemma HitsSplit(qs: seq<Question>, returnedOf: Question -> seq<Id>, p: (Question, Id) -> bool, wanted: set<Id>)
    requires qs != []
    requires forall id :: id in returnedOf(Last(qs)) ==> (p(Last(qs), id) <==> id in wanted)
    ensures var d, own := DropLast(qs), OfQuestion(|qs| - 1, WantedPlaces(returnedOf(Last(qs)), wanted));
            Hits(qs, returnedOf, p) == Hits(d, returnedOf, p) + own && Hits(d, returnedOf, p) !! own
  {
    var d, own := DropLast(qs), OfQuestion(|qs| - 1, WantedPlaces(returnedOf(Last(qs)), wanted));
    forall x
      ensures x in Hits(qs, returnedOf, p) <==> x in Hits(d, returnedOf, p) || x in own
    {
      if x.question == |d| {
        assert qs[x.question] == Last(qs);
      }
    }
  }

  lemma HitsAfter(qs: seq<Question>, returnedOf: Question -> seq<Id>, p: (Question, Id) -> bool, wanted: set<Id>)
    requires qs != []
    requires forall id :: id in returnedOf(Last(qs)) ==> (p(Last(qs), id) <==> id in wanted)
    ensures |Hits(qs, returnedOf, p)| ==
            |Hits(DropLast(qs), returnedOf, p)| + CountIn(returnedOf(Last(qs)), wanted)
  {
    hide Hits, WantedPlaces, OfQuestion, CountIn;
    HitsSplit(qs, returnedOf, p, wanted);
    CountIsPlaces(returnedOf(Last(qs)), wanted);
    PlacesOfQuestion(|qs| - 1, WantedPlaces(returnedOf(Last(qs)), wanted));
  }

  lemma WishesAfter(qs: seq<Question>)
    requires qs != []
    ensures |Wishes(qs)| == |Wishes(DropLast(qs))| + |Elements(Last(qs).expectedRecordIds)|
  {
    var d, wanted := DropLast(qs), Elements(Last(qs).expectedRecordIds);
    var own := set id | id in wanted :: Wish(|d|, id);
    ImageCount(wanted, id => Wish(|d|, id), own);
    assert Wishes(qs) == Wishes(d) + own;
    assert Wishes(d) !! own;
  }

  predicate IsShown(q: Question, id: Id) { true }

  lemma AllCounted(returned: seq<Id>)
    ensures CountIn(returned, Elements(returned)) == |returned|
  {
    FilterAll(returned, (id: Id) => id in Elements(returned));
  }

  /** The totals of a list of questions, as sizes of sets of places and wishes. */
  lemma {:induction false} TotalsAre(qs: seq<Question>, returnedOf: Question -> seq<Id>)
    ensures var t := TotalOf(qs, returnedOf);
            && t.questions == |qs|
            && t.totals.expectedReturned == |Hits(qs, returnedOf, IsExpected)|
            && t.totals.forbiddenReturned == |Hits(qs, returnedOf, IsForbidden)|
            && t.totals.totalReturned == |Shown(qs, returnedOf)|
            && t.totals.totalExpected == |Wishes(qs)|
            && t.totals.reciprocalRankTotal == RankTotal(qs, returnedOf)
  {
    hide CountIn, ReciprocalRank;
    assert Shown(qs, returnedOf) == Hits(qs, returnedOf, IsShown);
    if qs != [] {
      assert Shown(DropLast(qs), returnedOf) == Hits(DropLast(qs), returnedOf, IsShown);
      TotalsAre(DropLast(qs), returnedOf);
      HitsAfter(qs, returnedOf, IsExpected, Elements(Last(qs).expectedRecordIds));
      HitsAfter(qs, returnedOf, IsForbidden, Elements(Last(qs).forbiddenRecordIds));
      HitsAfter(qs, returnedOf, IsShown, Elements(returnedOf(Last(qs))));
      AllCounted(returnedOf(Last(qs)));
      WishesAfter(qs);
    } else {
      assert Hits(qs, returnedOf, IsExpected) == {} == Hits(qs, returnedOf, IsForbidden);
      assert Shown(qs, returnedOf) == {} && Wishes(qs) == {};
    }
  }

  /** Precision is the part of the shown places that hold an expected record, recall that part of the wishes, the mean
      reciprocal rank the mean over the questions, and the leaks are the places that hold a forbidden record. */
  ghost predicate Explains(m: Summary, qs: seq<Question>, returnedOf: Question -> seq<Id>) {
    var hits := |Hits(qs, returnedOf, IsExpected)| as real;
    && (Shown(qs, returnedOf) != {} ==> m.precision * |Shown(qs, returnedOf)| as real == hits)
    && (Wishes(qs) != {} ==> m.recall * |Wishes(qs)| as real == hits)
    && m.meanReciprocalRank * |qs| as real == RankTotal(qs, returnedOf)
    && m.leaks == |Hits(qs, returnedOf, IsForbidden)|
    && (Shown(qs, returnedOf) == {} ==> m.precision == 0.0) && (Wishes(qs) == {} ==> m.recall == 0.0)
  }

  lemma SummaryExplained(qs: seq<Question>, returnedOf: Question -> seq<Id>)
    ensures Explains(Published(TotalOf(qs, returnedOf)), qs, returnedOf)
  {
    hide Hits, Shown, Wishes, TotalOf;
    TotalsAre(qs, returnedOf);
    var t := TotalOf(qs, returnedOf).totals;
    if qs == [] {
      assert RankTotal(qs, returnedOf) == 0.0;
    }
    MetricsTimes(t, |qs|);
  }

  lemma MetricsTimes(t: Totals, n: nat)
    ensures var m := MetricsOf(t, n);
            && (t.totalReturned > 0 ==> m.precision * t.totalReturned as real == t.expectedReturned as real)
            && (t.totalExpected > 0 ==> m.recall * t.totalExpected as real == t.expectedReturned as real)
            && (n > 0 ==> m.meanReciprocalRank * n as real == t.reciprocalRankTotal)
            && (t.totalReturned == 0 ==> m.precision == 0.0) && (t.totalExpected == 0 ==> m.recall == 0.0)
            && (n == 0 ==> m.meanReciprocalRank == 0.0) && m.leaks == t.forbiddenReturned
  {
  }

  /** So for every ledger: overall, and for each cohort over the questions of the cohort. */
  lemma LedgerExplained(overall: Tally, cohorts: map<Cohort, Tally>, done: seq<Question>,
                        returnedOf: Question -> seq<Id>, k: Cohort)
    requires Ledger(overall, cohorts, done, returnedOf)
    ensures Explains(Published(overall), done, returnedOf)
    ensures Explains(Published(CohortOf(cohorts, k)), InCohort(done, k), returnedOf)
  {
    hide Explains, TotalOf, Reconciled, InCohort;
    SummaryExplained(done, returnedOf);
    SummaryExplained(InCohort(done, k), returnedOf);
  }

  // ---- The fused ranking

  /** A record with ranks a and b scores (61 / (60 + a) + 61 / (60 + b)) / 2; without a rank its part is missing. */
  lemma FusionScoreIs(a: nat, b: nat)
    requires a > 0 && b > 0
    ensures 2.0 * FusionScore(Some(a), Some(b)) * (60 + a) as real * (60 + b) as real ==
            61.0 * ((60 + a) as real + (60 + b) as real)
    ensures 2.0 * FusionScore(Some(a), None) * (60 + a) as real == 61.0
    ensures 2.0 * FusionScore(None, Some(b)) * (60 + b) as real == 61.0
    ensures FusionScore(None, None) == 0.0
  {
    var x, y := Contribution(Some(a)), Contribution(Some(b));
    var m, n := (60 + a) as real, (60 + b) as real;
    assert x * m == 1.0 && y * n == 1.0;
    assert FusionScore(Some(a), Some(b)) == (x + y) * 30.5;
    assert FusionScore(Some(a), None) == x * 30.5 && FusionScore(None, Some(b)) == y * 30.5;
    Expand(x, y, m, n);
  }

  lemma Expand(x: real, y: real, m: real, n: real)
    requires x * m == 1.0 && y * n == 1.0
    ensures 61.0 * (x + y) * m * n == 61.0 * (m + n)
  {
    assert (x + y) * m * n == x * m * n + y * n * m;
  }

  /** The rank of a record is one more than its place. */
  lemma {:induction false} RankIsPlace(ids: seq<Id>, i: nat)
    requires Distinct(ids) && i < |ids|
    ensures RankOf(ids, ids[i]) == Some(i + 1)
  {
    if i < |ids| - 1 {
      assert ids[i] != ids[|ids| - 1];
      RankIsPlace(DropLast(ids), i);
    }
  }

  lemma {:induction false} NoRank(ids: seq<Id>, id: Id)
    requires id !in ids
    ensures RankOf(ids, id) == None
  {
    if ids != [] {
      NoRank(DropLast(ids), id);
    }
  }

  /** The hybrid list comes in the order of the scores, and in the locale's order where they are equal. */
  lemma HybridIsOrdered(lexical: seq<Id>, semantic: seq<Id>, localeAtMost: (Id, Id) -> bool, limit: nat, i: nat, j: nat)
    requires TotalOrder(localeAtMost) && i < j < |HybridRecords(lexical, semantic, localeAtMost, limit)|
    ensures var hybrid := HybridRecords(lexical, semantic, localeAtMost, limit);
            var a, b := ScoreOf(lexical, semantic, hybrid[i]), ScoreOf(lexical, semantic, hybrid[j]);
            a > b || (a == b && localeAtMost(hybrid[i], hybrid[j]))
  {
    hide ScoreOf, Sorted;
    var order := ByScore(lexical, semantic, localeAtMost);
    ByScoreIsOrder(lexical, semantic, localeAtMost);
    SortedIsSorted(Unique(lexical + semantic), order);
    var ranked := Sorted(Unique(lexical + semantic), order);
    assert order(ranked[i], ranked[j]);
  }

  /** The lists of a question: the known records that each search returns, row by row, and the fusion of the two. */
  lemma ChannelsAre(lexicalRows: Question -> seq<Id>, semanticRows: Question -> seq<Id>, known: set<Id>,
                    localeAtMost: (Id, Id) -> bool, limit: nat, q: Question)
    ensures var resultsOf := ResultsFor(lexicalRows, semanticRows, known, localeAtMost, limit);
            var lexical, semantic := ReturnedBy(resultsOf, LexicalChannel)(q),
                                     ReturnedBy(resultsOf, SemanticChannel)(q);
            && RowByRow(lexicalRows(q), known, lexical) && RowByRow(semanticRows(q), known, semantic)
            && ReturnedBy(resultsOf, HybridChannel)(q) == HybridRecords(lexical, semantic, localeAtMost, limit)
  {
    hide HybridRecords, RecordsIn, RowByRow;
    RowsGiveRecords(lexicalRows(q), known);
    RowsGiveRecords(semanticRows(q), known);
    var results := ResultsFor(lexicalRows, semanticRows, known, localeAtMost, limit)(q);
    assert ListOf(results, LexicalChannel) == RecordsIn(lexicalRows(q), known);
    assert ListOf(results, SemanticChannel) == RecordsIn(semanticRows(q), known);
    assert ListOf(results, HybridChannel) == results.hybrid;
  }

  /** The records of the rows that are evidence of a known record, in the order of the rows. */
  ghost predicate RowByRow(rows: seq<Id>, known: set<Id>, records: seq<Id>) {
    if rows == [] then records == []
    else if rows[0].EvidenceResource? && rows[0].record in known then
      records != [] && records[0] == rows[0].record && RowByRow(rows[1..], known, records[1..])
    else RowByRow(rows[1..], known, records)
  }

  lemma {:induction false} RowsGiveRecords(rows: seq<Id>, known: set<Id>)
    ensures RowByRow(rows, known, RecordsIn(rows, known))
  {
    if rows != [] {
      RowsGiveRecords(rows[1..], known);
      FirstRow(rows, known);
      var first := if rows[0].EvidenceResource? && rows[0].record in known then [rows[0].record] else [];
      assert (first + RecordsIn(rows[1..], known))[|first|..] == RecordsIn(rows[1..], known);
    }
  }

  lemma {:induction false} FirstRow(rows: seq<Id>, known: set<Id>)
    requires rows != []
    ensures RecordsIn(rows, known) ==
            (if rows[0].EvidenceResource? && rows[0].record in known then [rows[0].record] else [])
            + RecordsIn(rows[1..], known)
  {
    if |rows| > 1 {
      FirstRow(DropLast(rows), known);
      assert DropLast(rows)[1..] == DropLast(rows[1..]);
    } else {
      assert DropLast(rows) == [];
    }
  }
}
