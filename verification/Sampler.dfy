/** `selectSemanticBenchmarkSample`: all chunks of the evaluated projects, and a fair choice among the others. */
module Sampler {
  import opened Prelude
  import opened Corpus
  import opened RoundRobin

  datatype SampleRow = SampleRow(id: Id, resourceId: Id, recordId: Id, body: string)

  /** Source system, visibility, and whether the latest body has more than 1600 characters. */
  datatype StratumKey = StratumKey(system: SourceSystem, visibility: Visibility, long: bool)

  datatype Sample = Sample(
    documents: seq<SampleRow>, queryTexts: set<string>, requiredDocuments: nat, distractorDocuments: nat,
    sourceSystems: map<SourceSystem, nat>, visibilityScopes: map<Visibility, nat>, longDocumentChunks: nat)

  datatype SampleError = NoRoom | TooManyRequired(required: nat, limit: int)

  function QueryTexts(c: ScaleCorpus): set<string> {
    Elements(Map(c.questions, (q: Question) => q.query))
  }

  function EvaluatedProjects(c: ScaleCorpus): set<Id> {
    Elements(Map(c.questions, (q: Question) => q.canonicalProjectId))
  }

  predicate IsRequired(c: ScaleCorpus, row: SampleRow) {
    row.recordId in ById(c.records) && ById(c.records)[row.recordId].canonicalProjectId in EvaluatedProjects(c)
  }

  function Required(c: ScaleCorpus, rows: seq<SampleRow>): seq<SampleRow> {
    Filter(rows, (row: SampleRow) => IsRequired(c, row))
  }

  function RowIds(rows: seq<SampleRow>): seq<Id> {
    Map(rows, (row: SampleRow) => row.id)
  }

  function KeyFor(r: Record): StratumKey {
    StratumKey(r.sourceSystem, r.visibility, |Latest(r).body| > 1600)
  }

  /** A row that may be drawn: not among the required ones, and of a known record. */
  predicate Drawable(c: ScaleCorpus, required: set<Id>, row: SampleRow) {
    row.id !in required && row.recordId in ById(c.records)
  }

  predicate InStratum(c: ScaleCorpus, required: set<Id>, key: StratumKey, row: SampleRow) {
    Drawable(c, required, row) && KeyFor(ById(c.records)[row.recordId]) == key
  }

  function Stratum(c: ScaleCorpus, required: set<Id>, key: StratumKey, rows: seq<SampleRow>): seq<SampleRow> {
    Filter(rows, (row: SampleRow) => InStratum(c, required, key, row))
  }

  function RequiredIds(c: ScaleCorpus, rows: seq<SampleRow>): set<Id> {
    Elements(RowIds(Required(c, rows)))
  }

  function Strata(c: ScaleCorpus, rows: seq<SampleRow>, order: seq<StratumKey>): seq<seq<SampleRow>> {
    seq(|order|, i requires 0 <= i < |order| => Stratum(c, RequiredIds(c, rows), order[i], rows))
  }

  /** The strata that occur, sorted by key; `order` is the locale's order of all keys. */
  ghost predicate Orders(order: seq<StratumKey>) {
    Distinct(order) && forall key: StratumKey :: key in order
  }

  /** The loop that fills the strata. */
  method Stratify(c: ScaleCorpus, rows: seq<SampleRow>, required: set<Id>)
    returns (strata: map<StratumKey, seq<SampleRow>>)
    ensures forall k :: Stratum(c, required, k, rows) == if k in strata then strata[k] else []
  {
    hide Drawable, KeyFor;
    strata := map[];
    for i := 0 to |rows|
      invariant forall k :: Stratum(c, required, k, rows[..i]) == if k in strata then strata[k] else []
    {
      assert DropLast(rows[..i + 1]) == rows[..i] && Last(rows[..i + 1]) == rows[i];
      if Drawable(c, required, rows[i]) {
        DrawableKnown(c, required, rows[i]);
        var key := KeyFor(ById(c.records)[rows[i].recordId]);
        var queue := if key in strata then strata[key] else [];
        strata := strata[key := queue + [rows[i]]];
      }
    }
    assert rows[..|rows|] == rows;
  }

  lemma DrawableKnown(c: ScaleCorpus, required: set<Id>, row: SampleRow)
    requires Drawable(c, required, row)
    ensures row.recordId in ById(c.records)
  {
  }

  /** Every drawable row is in exactly one stratum. */
  lemma StrataPartition(c: ScaleCorpus, rows: seq<SampleRow>, order: seq<StratumKey>)
    requires Orders(order)
    ensures multiset(Concat(Strata(c, rows, order))) ==
            multiset(Filter(rows, (row: SampleRow) => Drawable(c, RequiredIds(c, rows), row)))
  {
    hide KeyFor, RequiredIds, Drawable;
    var required := RequiredIds(c, rows);
    StrataCount(c, required, rows, order);
    FilterSame(rows, (row: SampleRow) => InStrata(c, required, order, row), (row: SampleRow) =>
                 Drawable(c, required, row)) by {
      forall row | row in rows
        ensures InStrata(c, required, order, row) <==> Drawable(c, required, row)
      {
        if Drawable(c, required, row) {
          DrawableKnown(c, required, row);
          assert KeyFor(ById(c.records)[row.recordId]) in order;
        }
      }
    }
  }

  predicate InStrata(c: ScaleCorpus, required: set<Id>, order: seq<StratumKey>, row: SampleRow) {
    Drawable(c, required, row) && KeyFor(ById(c.records)[row.recordId]) in order
  }

  function StrataOf(c: ScaleCorpus, required: set<Id>, rows: seq<SampleRow>,
                    order: seq<StratumKey>): seq<seq<SampleRow>> {
    seq(|order|, i requires 0 <= i < |order| => Stratum(c, required, order[i], rows))
  }

  lemma {:induction false} StrataCount(c: ScaleCorpus, required: set<Id>, rows: seq<SampleRow>, order: seq<StratumKey>)
    requires Distinct(order)
    ensures multiset(Concat(StrataOf(c, required, rows, order))) ==
            multiset(Filter(rows, (row: SampleRow) => InStrata(c, required, order, row)))
  {
    hide KeyFor, Drawable;
    if order != [] {
      var d, k := DropLast(order), Last(order);
      StrataCount(c, required, rows, d);
      assert DropLast(StrataOf(c, required, rows, order)) == StrataOf(c, required, rows, d);
      assert order == d + [k];
      SplitStratum(c, required, rows, d, k);
    } else {
      FilterNone(rows, (row: SampleRow) => InStrata(c, required, order, row));
    }
  }

  lemma {:induction false} SplitStratum(c: ScaleCorpus, required: set<Id>, rows: seq<SampleRow>, d: seq<StratumKey>,
                                        k: StratumKey)
    requires k !in d
    ensures multiset(Filter(rows, (row: SampleRow) => InStrata(c, required, d + [k], row)))
         == multiset(Filter(rows, (row: SampleRow) => InStrata(c, required, d, row)))
            + multiset(Stratum(c, required, k, rows))
  {
    hide KeyFor, Drawable;
    if rows != [] {
      SplitStratum(c, required, DropLast(rows), d, k);
    }
  }

  // ---- Counting the sample

  /** `map.set(key, (map.get(key) ?? 0) + 1)` for every row. */
  function Counts<K(==)>(rows: seq<SampleRow>, key: SampleRow -> K): map<K, nat> {
    if rows == [] then map[]
    else
      var counts := Counts(DropLast(rows), key);
      counts[key(Last(rows)) := CountIn(counts, key(Last(rows))) + 1]
  }

  function CountIn<K(==)>(counts: map<K, nat>, k: K): nat {
    if k in counts then counts[k] else 0
  }

  method CountBy<K(==)>(rows: seq<SampleRow>, key: SampleRow -> K) returns (counts: map<K, nat>)
    ensures counts == Counts(rows, key)
  {
    counts := map[];
    for i := 0 to |rows|
      invariant counts == Counts(rows[..i], key)
    {
      assert DropLast(rows[..i + 1]) == rows[..i];
      counts := counts[key(rows[i]) := CountIn(counts, key(rows[i])) + 1];
    }
    assert rows[..|rows|] == rows;
  }

  /** A count is the number of rows with the key, and only keys that occur have one. */
  lemma {:induction false} CountsAre<K>(rows: seq<SampleRow>, key: SampleRow -> K, k: K)
    ensures CountIn(Counts(rows, key), k) == |Filter(rows, (row: SampleRow) => key(row) == k)|
    ensures k in Counts(rows, key) <==> CountIn(Counts(rows, key), k) > 0
  {
    if rows != [] {
      CountsAre(DropLast(rows), key, k);
    }
  }

  /** The stratum that the record of a row belongs to; every row of a sample has a record. */
  function StratumOf(c: ScaleCorpus, row: SampleRow): StratumKey {
    if row.recordId in ById(c.records) then KeyFor(ById(c.records)[row.recordId])
    else StratumKey(Research, Everyone, false)
  }

  function SystemOf(c: ScaleCorpus): SampleRow -> SourceSystem { (row: SampleRow) => StratumOf(c, row).system }
  function ScopeOf(c: ScaleCorpus): SampleRow -> Visibility { (row: SampleRow) => StratumOf(c, row).visibility }

  function LongDocuments(c: ScaleCorpus, rows: seq<SampleRow>): nat {
    |Filter(rows, (row: SampleRow) => StratumOf(c, row).long)|
  }

  function SystemTotal(m: map<SourceSystem, nat>): nat {
    CountIn(m, Research) + CountIn(m, Meetings) + CountIn(m, Crm) + CountIn(m, Documents) + CountIn(m, Messages)
  }

  function ScopeTotal(m: map<Visibility, nat>): nat {
    CountIn(m, Everyone) + CountIn(m, Internal) + CountIn(m, AlexOnly) + CountIn(m, JamieOnly)
  }

  /** The counts by source system add up to the rows, and so do those by visibility. */
  lemma {:induction false} CountsAddUp(rows: seq<SampleRow>, system: SampleRow -> SourceSystem,
                                       scope: SampleRow -> Visibility)
    ensures SystemTotal(Counts(rows, system)) == |rows| && ScopeTotal(Counts(rows, scope)) == |rows|
  {
    if rows != [] {
      CountsAddUp(DropLast(rows), system, scope);
      match system(Last(rows)) {
        case Research => case Meetings => case Crm => case Documents => case Messages =>
      }
      match scope(Last(rows)) {
        case Everyone => case Internal => case AlexOnly => case JamieOnly =>
      }
    }
  }

  // ---- The sample

  predicate RoomFor(c: ScaleCorpus, rows: seq<SampleRow>, maximumInputs: int) {
    1 <= maximumInputs - |QueryTexts(c)| && |Required(c, rows)| <= maximumInputs - |QueryTexts(c)|
  }

  /** The required rows, then the drawable ones in round-robin order of their strata, up to the cap. */
  function SampleOf(c: ScaleCorpus, rows: seq<SampleRow>, order: seq<StratumKey>, maximumInputs: int): Sample
    requires RoomFor(c, rows, maximumInputs)
  {
    var required, all := Required(c, rows), Listing(Strata(c, rows, order));
    var distractors := all[..Min(maximumInputs - |QueryTexts(c)| - |required|, |all|)];
    var documents := required + distractors;
    Sample(documents, QueryTexts(c), |required|, |distractors|,
           Counts(documents, SystemOf(c)), Counts(documents, ScopeOf(c)), LongDocuments(c, documents))
  }

  /** `selectSemanticBenchmarkSample`, on the rows that the query returns. */
  method SelectSample(c: ScaleCorpus, rows: seq<SampleRow>, order: seq<StratumKey>,
                      maximumInputs: int) returns (r: Result<Sample, SampleError>)
    requires Orders(order)
    ensures r.Success? <==> RoomFor(c, rows, maximumInputs)
    ensures r.Success? ==> r.value == SampleOf(c, rows, order, maximumInputs)
    ensures r.Failure? ==> r.error == if maximumInputs - |QueryTexts(c)| < 1 then NoRoom
                                      else TooManyRequired(|Required(c, rows)|, maximumInputs - |QueryTexts(c)|)
  {
    hide IsRequired, Stratum, Listing, Concat, Orders, QueryTexts, RequiredIds, Counts, LongDocuments, SystemOf,
      ScopeOf;
    var queryTexts := QueryTexts(c);
    var documentLimit := maximumInputs - |queryTexts|;
    if documentLimit < 1 {
      return Failure(NoRoom);
    }
    var required := Required(c, rows);
    if |required| > documentLimit {
      return Failure(TooManyRequired(|required|, documentLimit));
    }
    var strata := Stratify(c, rows, RequiredIds(c, rows));
    var queues := new seq<SampleRow>[|order|](i requires 0 <= i < |order| => if order[i] in strata then
                                              strata[order[i]] else []);
    assert queues[..] == Strata(c, rows, order);
    var distractors := TakeInTurn(queues, documentLimit - |required|);
    var documents := required + distractors;
    var sourceSystems := CountBy(documents, SystemOf(c));
    var visibilityScopes := CountBy(documents, ScopeOf(c));
    r := Success(Sample(documents, queryTexts, |required|, |distractors|, sourceSystems, visibilityScopes,
                        LongDocuments(c, documents)));
  }

  // ---- What the sample is

  predicate Known(c: ScaleCorpus, row: SampleRow) { row.recordId in ById(c.records) }

  lemma DistinctRows(rows: seq<SampleRow>)
    requires Distinct(RowIds(rows))
    ensures Distinct(rows)
    ensures forall x, y :: x in rows && y in rows && x.id == y.id ==> x == y
  {
    forall x, y | x in rows && y in rows && x.id == y.id
      ensures x == y
    {
      var i :| 0 <= i < |rows| && rows[i] == x;
      var j :| 0 <= j < |rows| && rows[j] == y;
      assert RowIds(rows)[i] == RowIds(rows)[j];
    }
    forall i, j | 0 <= i < j < |rows|
      ensures rows[i] != rows[j]
    {
      assert RowIds(rows)[i] != RowIds(rows)[j];
    }
  }

  lemma RequiredIdsAre(c: ScaleCorpus, rows: seq<SampleRow>, row: SampleRow)
    requires Distinct(RowIds(rows)) && row in rows
    ensures row.id in RequiredIds(c, rows) <==> IsRequired(c, row)
  {
    hide IsRequired;
    DistinctRows(rows);
    var required := Required(c, rows);
    FilterMembers(rows, (row: SampleRow) => IsRequired(c, row));
    if row.id in RequiredIds(c, rows) {
      var i :| 0 <= i < |required| && RowIds(required)[i] == row.id;
      assert required[i] in required;
    }
    if IsRequired(c, row) {
      var i :| 0 <= i < |required| && required[i] == row;
      assert RowIds(required)[i] == row.id;
    }
  }

  /** Required and drawable rows are together the known ones, and there is no overlap. */
  lemma RequiredOrDrawable(c: ScaleCorpus, rows: seq<SampleRow>, row: SampleRow)
    requires Distinct(RowIds(rows)) && row in rows
    ensures Known(c, row) <==> IsRequired(c, row) || Drawable(c, RequiredIds(c, rows), row)
    ensures !(IsRequired(c, row) && Drawable(c, RequiredIds(c, rows), row))
  {
    hide RequiredIds;
    RequiredIdsAre(c, rows, row);
  }

  lemma {:induction false} SplitFilter<T>(s: seq<T>, p: T -> bool, q: T -> bool, either: T -> bool)
    requires forall x :: x in s ==> (either(x) <==> p(x) || q(x)) && !(p(x) && q(x))
    ensures multiset(Filter(s, either)) == multiset(Filter(s, p)) + multiset(Filter(s, q))
  {
    if s != [] {
      assert forall x :: x in DropLast(s) ==> x in s;
      SplitFilter(DropLast(s), p, q, either);
    }
  }

  lemma KnownSplit(c: ScaleCorpus, rows: seq<SampleRow>, order: seq<StratumKey>)
    requires Distinct(RowIds(rows)) && Orders(order)
    ensures multiset(Required(c, rows) + Listing(Strata(c, rows, order))) ==
            multiset(Filter(rows, (row: SampleRow) => Known(c, row)))
  {
    hide IsRequired, Drawable, RequiredIds, Known, Strata, Listing, Concat, Orders;
    ListingRearranges(Strata(c, rows, order));
    StrataPartition(c, rows, order);
    forall row | row in rows
      ensures Known(c, row) <==> IsRequired(c, row) || Drawable(c, RequiredIds(c, rows), row)
      ensures !(IsRequired(c, row) && Drawable(c, RequiredIds(c, rows), row))
    {
      RequiredOrDrawable(c, rows, row);
    }
    SplitFilter(rows, (row: SampleRow) => IsRequired(c, row), (row: SampleRow) =>
                  Drawable(c, RequiredIds(c, rows), row), (row: SampleRow) => Known(c, row));
  }

  /** The sample holds every required row, no row twice, only rows of known records, never more inputs than allowed, and
      as many documents as the cap leaves room for: it stops early only when every stratum is empty. What it draws from
      each stratum is a prefix, and no stratum is more than one row ahead of one that still has rows. The counts by
      source system and by visibility add up to its documents. */
  lemma SampleIsSound(c: ScaleCorpus, rows: seq<SampleRow>, order: seq<StratumKey>, maximumInputs: int)
    requires Distinct(RowIds(rows)) && Orders(order) && RoomFor(c, rows, maximumInputs)
    ensures var s := SampleOf(c, rows, order, maximumInputs);
            && |s.documents| + |s.queryTexts| <= maximumInputs
            && |s.documents| == s.requiredDocuments + s.distractorDocuments
            && |s.documents| == Min(maximumInputs - |s.queryTexts|, |Filter(rows, (row: SampleRow) => Known(c, row))|)
            && Distinct(s.documents)
            && FairlyDrawn(Strata(c, rows, order), s.documents[s.requiredDocuments..])
            && (forall row :: row in s.documents ==> row in rows && Known(c, row))
            && (forall row :: row in rows && IsRequired(c, row) ==> row in s.documents)
            && SystemTotal(s.sourceSystems) == |s.documents| && ScopeTotal(s.visibilityScopes) == |s.documents|
  {
    hide IsRequired, Drawable, RequiredIds, Known, Strata, Listing, Concat, Orders, QueryTexts, Distinct, FairlyDrawn,
      SystemTotal, ScopeTotal, SystemOf, ScopeOf, LongDocuments;
    CountsAddUp(SampleOf(c, rows, order, maximumInputs).documents, SystemOf(c), ScopeOf(c));
    var known := Filter(rows, (row: SampleRow) => Known(c, row));
    var required, all := Required(c, rows), Listing(Strata(c, rows, order));
    KnownSplit(c, rows, order);
    SameMultiset(required + all, known);
    DistinctRows(rows);
    FilterDistinct(rows, (row: SampleRow) => Known(c, row));
    FilterMembers(rows, (row: SampleRow) => Known(c, row));
    FilterMembers(rows, (row: SampleRow) => IsRequired(c, row));
    var s := SampleOf(c, rows, order, maximumInputs);
    assert s.documents <= required + all;
    PrefixDistinct(s.documents, required + all);
    EveryPrefixIsFair(Strata(c, rows, order), s.distractorDocuments);
    assert s.documents[s.requiredDocuments..] == all[..s.distractorDocuments];
  }
}
