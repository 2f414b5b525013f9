/** What the semantic benchmark's sample is, in terms of the fields of the records: strata, shares and counts. */
module SampleFields {
  import opened Prelude
  import opened Corpus
  import opened RoundRobin
  import opened Sampler

  /** The row is of a known record with the given source system, visibility and length. */
  predicate HasFields(c: ScaleCorpus, row: SampleRow, system: SourceSystem, visibility: Visibility, long: bool) {
    && row.recordId in ById(c.records)
    && var r := ById(c.records)[row.recordId];
    && r.sourceSystem == system && r.visibility == visibility
    && (long <==> r.versions != [] && |Last(r.versions).body| > 1600)
  }

  /** Rows share a stratum exactly when their records agree in the three fields. */
  lemma SameStratumMeans(c: ScaleCorpus, required: set<Id>, a: SampleRow, b: SampleRow)
    requires Drawable(c, required, a) && Drawable(c, required, b)
    ensures (exists key :: InStratum(c, required, key, a) && InStratum(c, required, key, b)) <==>
            exists system, visibility, long :: HasFields(c, a, system, visibility, long)
                                               && HasFields(c, b, system, visibility, long)
  {
    var r, s := ById(c.records)[a.recordId], ById(c.records)[b.recordId];
    var key := StratumKey(r.sourceSystem, r.visibility, |Latest(r).body| > 1600);
    assert HasFields(c, a, key.system, key.visibility, key.long);
    assert InStratum(c, required, key, a);
    if HasFields(c, b, key.system, key.visibility, key.long) {
      assert InStratum(c, required, key, b);
    }
    if k :| InStratum(c, required, k, a) && InStratum(c, required, k, b) {
      assert k == key;
      assert HasFields(c, b, key.system, key.visibility, key.long);
    }
  }

  // ---- The counts

  /** How many of the documents are of a record with the property, counted by position. */
  ghost function CountWhere(c: ScaleCorpus, documents: seq<SampleRow>, p: Record -> bool): nat {
    |PlacesWhere(c, documents, p)|
  }

  ghost function PlacesWhere(c: ScaleCorpus, documents: seq<SampleRow>, p: Record -> bool): set<nat> {
    set i: nat | i < |documents| && documents[i].recordId in ById(c.records)
                 && p(ById(c.records)[documents[i].recordId])
  }

  lemma {:induction false} FilterIsCount(c: ScaleCorpus, documents: seq<SampleRow>, p: Record -> bool,
                                         q: SampleRow -> bool)
    requires forall row :: row in documents ==>
                             row.recordId in ById(c.records) && (q(row) <==> p(ById(c.records)[row.recordId]))
    ensures |Filter(documents, q)| == CountWhere(c, documents, p)
  {
    if documents != [] {
      var d, row := DropLast(documents), Last(documents);
      assert documents == d + [row];
      FilterIsCount(c, d, p, q);
      var rest := PlacesWhere(c, d, p);
      if q(row) {
        assert PlacesWhere(c, documents, p) == rest + {|d|};
      } else {
        assert PlacesWhere(c, documents, p) == rest;
      }
    } else {
      assert PlacesWhere(c, documents, p) == {};
    }
  }

  ghost function PlacesOf<K>(rows: seq<SampleRow>, key: SampleRow -> K, k: K): set<nat> {
    set i: nat | i < |rows| && key(rows[i]) == k
  }

  lemma {:induction false} CountIsPlaces<K>(rows: seq<SampleRow>, key: SampleRow -> K, k: K)
    ensures CountIn(Counts(rows, key), k) == |PlacesOf(rows, key, k)|
  {
    var places := PlacesOf(rows, key, k);
    if rows != [] {
      var d := DropLast(rows);
      CountIsPlaces(d, key, k);
      var rest := PlacesOf(d, key, k);
      if key(Last(rows)) == k {
        assert places == rest + {|d|};
      } else {
        assert places == rest;
      }
    } else {
      assert places == {};
    }
  }

  function FromSystem(system: SourceSystem): Record -> bool { (r: Record) => r.sourceSystem == system }
  function InScope(visibility: Visibility): Record -> bool { (r: Record) => r.visibility == visibility }

  lemma SystemsCounted(c: ScaleCorpus, documents: seq<SampleRow>, system: SourceSystem)
    requires forall row :: row in documents ==> row.recordId in ById(c.records)
    ensures CountIn(Counts(documents, SystemOf(c)), system) ==
            CountWhere(c, documents, FromSystem(system))
    ensures system in Counts(documents, SystemOf(c)) <==> CountIn(Counts(documents, SystemOf(c)), system) > 0
  {
    CountsAre(documents, SystemOf(c), system);
    CountIsPlaces(documents, SystemOf(c), system);
    assert PlacesWhere(c, documents, FromSystem(system)) == PlacesOf(documents, SystemOf(c), system);
  }

  lemma ScopesCounted(c: ScaleCorpus, documents: seq<SampleRow>, visibility: Visibility)
    requires forall row :: row in documents ==> row.recordId in ById(c.records)
    ensures CountIn(Counts(documents, ScopeOf(c)), visibility) ==
            CountWhere(c, documents, InScope(visibility))
    ensures visibility in Counts(documents, ScopeOf(c)) <==> CountIn(Counts(documents, ScopeOf(c)), visibility) > 0
  {
    CountsAre(documents, ScopeOf(c), visibility);
    CountIsPlaces(documents, ScopeOf(c), visibility);
    assert PlacesWhere(c, documents, InScope(visibility)) == PlacesOf(documents, ScopeOf(c), visibility);
  }

  /** The latest version has more than 1600 characters. */
  predicate IsLong(r: Record) { r.versions != [] && |Last(r.versions).body| > 1600 }

  lemma LongCounted(c: ScaleCorpus, documents: seq<SampleRow>)
    requires forall row :: row in documents ==> row.recordId in ById(c.records)
    ensures LongDocuments(c, documents) == CountWhere(c, documents, IsLong)
  {
    hide CountWhere;
    FilterIsCount(c, documents, IsLong, (row: SampleRow) => StratumOf(c, row).long);
  }

  /** The published counts are those of the records: by source system, by visibility, and of the long ones. */
  lemma CountsAreOfRecords(c: ScaleCorpus, rows: seq<SampleRow>, order: seq<StratumKey>, maximumInputs: int,
                           system: SourceSystem, visibility: Visibility)
    requires Distinct(RowIds(rows)) && Orders(order) && RoomFor(c, rows, maximumInputs)
    ensures var s := SampleOf(c, rows, order, maximumInputs);
            && CountIn(s.sourceSystems, system) == CountWhere(c, s.documents, FromSystem(system))
            && CountIn(s.visibilityScopes, visibility) ==
               CountWhere(c, s.documents, InScope(visibility))
            && s.longDocumentChunks == CountWhere(c, s.documents, IsLong)
            && (forall text :: text in s.queryTexts <==> exists q :: q in c.questions && q.query == text)
            && (system in s.sourceSystems <==> CountIn(s.sourceSystems, system) > 0)
            && (visibility in s.visibilityScopes <==> CountIn(s.visibilityScopes, visibility) > 0)
  {
    hide Strata, Listing, Concat, Orders, QueryTexts, RequiredIds, Drawable, IsRequired, FairlyDrawn, Counts, CountIn,
      CountWhere, LongDocuments, SystemOf, ScopeOf, SystemTotal, ScopeTotal;
    SampleIsSound(c, rows, order, maximumInputs);
    var documents := SampleOf(c, rows, order, maximumInputs).documents;
    SystemsCounted(c, documents, system);
    ScopesCounted(c, documents, visibility);
    LongCounted(c, documents);
    QueriesAre(c);
  }

  lemma QueriesAre(c: ScaleCorpus)
    ensures forall text :: text in QueryTexts(c) <==> exists q :: q in c.questions && q.query == text
  {
    var texts := Map(c.questions, (q: Question) => q.query);
    forall text
      ensures text in texts <==> exists q :: q in c.questions && q.query == text
    {
      if text in texts {
        var i :| 0 <= i < |texts| && texts[i] == text;
        assert c.questions[i] in c.questions;
      }
      if q :| q in c.questions && q.query == text {
        var i :| 0 <= i < |c.questions| && c.questions[i] == q;
        assert texts[i] == text;
      }
    }
  }

  // ---- What is always taken

  /** Some question asks about the project. */
  predicate AskedAbout(c: ScaleCorpus, project: Id) {
    exists q :: q in c.questions && q.canonicalProjectId == project
  }

  /** The row is of a known record of a project that a question asks about. */
  predicate Needed(c: ScaleCorpus, row: SampleRow) {
    row.recordId in ById(c.records) && AskedAbout(c, ById(c.records)[row.recordId].canonicalProjectId)
  }

  lemma EvaluatedAre(c: ScaleCorpus, project: Id)
    ensures project in EvaluatedProjects(c) <==> AskedAbout(c, project)
  {
    var projects := Map(c.questions, (q: Question) => q.canonicalProjectId);
    if project in projects {
      var i :| 0 <= i < |projects| && projects[i] == project;
      assert c.questions[i] in c.questions;
    }
    if q :| q in c.questions && q.canonicalProjectId == project {
      var i :| 0 <= i < |c.questions| && c.questions[i] == q;
      assert projects[i] == project;
    }
  }

  /** The sample begins with every row of a project that a question asks about, in the order of the query. */
  lemma RequiredAre(c: ScaleCorpus, rows: seq<SampleRow>, order: seq<StratumKey>, maximumInputs: int)
    requires Distinct(RowIds(rows)) && Orders(order) && RoomFor(c, rows, maximumInputs)
    ensures var s := SampleOf(c, rows, order, maximumInputs);
            && s.requiredDocuments + s.distractorDocuments == |s.documents|
            && s.documents[..s.requiredDocuments] == Filter(rows, (row: SampleRow) => Needed(c, row))
  {
    forall row
      ensures IsRequired(c, row) <==> Needed(c, row)
    {
      if row.recordId in ById(c.records) {
        EvaluatedAre(c, ById(c.records)[row.recordId].canonicalProjectId);
      }
    }
    FilterSame(rows, (row: SampleRow) => IsRequired(c, row), (row: SampleRow) => Needed(c, row));
    hide Listing, Concat, QueryTexts, RequiredIds, IsRequired, Needed, Strata, Filter, Counts, LongDocuments;
  }

  // ---- What is drawn from each stratum

  /** The rows that may be drawn from a stratum, in the order of the query: of known records of projects that no
      question is about. */
  function Available(c: ScaleCorpus, rows: seq<SampleRow>, system: SourceSystem, visibility: Visibility,
                     long: bool): seq<SampleRow> {
    Filter(rows, (row: SampleRow) =>
             HasFields(c, row, system, visibility, long)
             && !AskedAbout(c, ById(c.records)[row.recordId].canonicalProjectId))
  }

  /** The rows that the sample has drawn from a stratum. */
  function Drawn(c: ScaleCorpus, s: Sample, system: SourceSystem, visibility: Visibility, long: bool): seq<SampleRow>
    requires s.requiredDocuments <= |s.documents|
  {
    Filter(s.documents[s.requiredDocuments..], (row: SampleRow) => HasFields(c, row, system, visibility, long))
  }

  lemma AvailableIsStratum(c: ScaleCorpus, rows: seq<SampleRow>, system: SourceSystem, visibility: Visibility,
                           long: bool)
    requires Distinct(RowIds(rows))
    ensures Available(c, rows, system, visibility, long) ==
            Stratum(c, RequiredIds(c, rows), StratumKey(system, visibility, long), rows)
  {
    hide RequiredIds, EvaluatedProjects, AskedAbout;
    var required, key := RequiredIds(c, rows), StratumKey(system, visibility, long);
    forall row | row in rows
      ensures HasFields(c, row, system, visibility, long)
              && !AskedAbout(c, ById(c.records)[row.recordId].canonicalProjectId) <==>
              InStratum(c, required, key, row)
    {
      RequiredIdsAre(c, rows, row);
      if row.recordId in ById(c.records) {
        EvaluatedAre(c, ById(c.records)[row.recordId].canonicalProjectId);
      }
    }
    FilterSame(rows, (row: SampleRow) =>
                 HasFields(c, row, system, visibility, long)
                 && !AskedAbout(c, ById(c.records)[row.recordId].canonicalProjectId),
               (row: SampleRow) => InStratum(c, required, key, row));
  }

  lemma {:induction false} FilterConcat<T>(queues: seq<seq<T>>, p: T -> bool, i: nat)
    requires i < |queues|
    requires forall j, x :: 0 <= j < |queues| && x in queues[j] ==> (p(x) <==> j == i)
    ensures Filter(Concat(queues), p) == queues[i]
  {
    var d, last := DropLast(queues), Last(queues);
    FilterAppend(Concat(d), last, p);
    if i == |d| {
      FilterAll(last, p);
      NothingIn(d, p);
    } else {
      FilterConcat(d, p, i);
      FilterNone(last, p);
    }
  }

  lemma {:induction false} NothingIn<T>(queues: seq<seq<T>>, p: T -> bool)
    requires forall j, x :: 0 <= j < |queues| && x in queues[j] ==> !p(x)
    ensures Filter(Concat(queues), p) == []
  {
    if queues != [] {
      NothingIn(DropLast(queues), p);
      FilterAppend(Concat(DropLast(queues)), Last(queues), p);
      FilterNone(Last(queues), p);
    }
  }

  lemma {:induction false} FilterMultiset(s: seq<SampleRow>, p: SampleRow -> bool, x: SampleRow)
    ensures multiset(Filter(s, p))[x] == if p(x) then multiset(s)[x] else 0
  {
    if s != [] {
      FilterMultiset(DropLast(s), p, x);
      assert s == DropLast(s) + [Last(s)];
    }
  }

  lemma SameFiltered(a: seq<SampleRow>, b: seq<SampleRow>, p: SampleRow -> bool)
    requires multiset(a) == multiset(b)
    ensures multiset(Filter(a, p)) == multiset(Filter(b, p))
    ensures |Filter(a, p)| == |Filter(b, p)|
  {
    var m, n := multiset(Filter(a, p)), multiset(Filter(b, p));
    forall x: SampleRow
      ensures m[x] == n[x]
    {
      FilterMultiset(a, p, x);
      FilterMultiset(b, p, x);
    }
    assert m == n;
    SameSize(Filter(a, p), Filter(b, p));
  }

  lemma StratumRowsHaveFields(c: ScaleCorpus, rows: seq<SampleRow>, key: StratumKey, row: SampleRow, other: StratumKey)
    requires row in Stratum(c, RequiredIds(c, rows), other, rows)
    ensures HasFields(c, row, key.system, key.visibility, key.long) <==> other == key
  {
    hide RequiredIds;
    FilterMembers(rows, (x: SampleRow) => InStratum(c, RequiredIds(c, rows), other, x));
  }

  /** How much is drawn from the stratum at one place of the order. */
  lemma DrawnFrom(c: ScaleCorpus, rows: seq<SampleRow>, order: seq<StratumKey>, out: seq<SampleRow>,
                  taken: seq<nat>, i: nat)
    requires Orders(order) && Distinct(RowIds(rows)) && i < |order|
    requires Balanced(Strata(c, rows, order), taken)
    requires multiset(out) == multiset(Concat(Heads(Strata(c, rows, order), taken)))
    ensures var key, queues := order[i], Strata(c, rows, order);
            var drawn := Filter(out, (row: SampleRow) => HasFields(c, row, key.system, key.visibility, key.long));
            && multiset(drawn) == multiset(queues[i][..taken[i]]) && |drawn| == taken[i]
  {
    hide Stratum, RequiredIds, Concat, Filter, HasFields;
    var key, queues := order[i], Strata(c, rows, order);
    var heads := Heads(queues, taken);
    var p := (row: SampleRow) => HasFields(c, row, key.system, key.visibility, key.long);
    forall j, x | 0 <= j < |heads| && x in heads[j]
      ensures p(x) <==> j == i
    {
      assert x in queues[j];
      StratumRowsHaveFields(c, rows, key, x, order[j]);
    }
    FilterConcat(heads, p, i);
    SameFiltered(out, Concat(heads), p);
    SameSize(Filter(out, p), heads[i]);
  }

  /** What a stratum gave and what it had. */
  ghost predicate GivesFirst(c: ScaleCorpus, rows: seq<SampleRow>, s: Sample, system: SourceSystem,
                             visibility: Visibility, long: bool)
    requires s.requiredDocuments <= |s.documents|
  {
    var drawn, all := Drawn(c, s, system, visibility, long), Available(c, rows, system, visibility, long);
    |drawn| <= |all| && multiset(drawn) == multiset(all[..|drawn|])
  }

  /** The sample is stratified by source system, visibility and length: it draws the first rows of each stratum, and
      from no stratum more than one row more than from another one that still has rows. */
  lemma DrawnEvenly(c: ScaleCorpus, rows: seq<SampleRow>, order: seq<StratumKey>, maximumInputs: int,
                    a: StratumKey, b: StratumKey)
    requires Distinct(RowIds(rows)) && Orders(order) && RoomFor(c, rows, maximumInputs)
    ensures var s := SampleOf(c, rows, order, maximumInputs);
            && s.requiredDocuments <= |s.documents|
            && GivesFirst(c, rows, s, a.system, a.visibility, a.long)
            && (|Drawn(c, s, b.system, b.visibility, b.long)|
                < |Available(c, rows, b.system, b.visibility, b.long)| ==>
                  |Drawn(c, s, a.system, a.visibility, a.long)|
                  <= |Drawn(c, s, b.system, b.visibility, b.long)| + 1)
  {
    hide Listing, Concat, QueryTexts, RequiredIds, Drawable, IsRequired, HasFields, Filter, Stratum, Heads, Counts,
      LongDocuments, Available, SystemTotal, ScopeTotal;
    SampleIsSound(c, rows, order, maximumInputs);
    var s := SampleOf(c, rows, order, maximumInputs);
    var out, queues := s.documents[s.requiredDocuments..], Strata(c, rows, order);
    var taken :| Balanced(queues, taken) && multiset(out) == multiset(Concat(Heads(queues, taken)));
    assert a in order && b in order;
    var i :| 0 <= i < |order| && order[i] == a;
    var j :| 0 <= j < |order| && order[j] == b;
    DrawnFrom(c, rows, order, out, taken, i);
    DrawnFrom(c, rows, order, out, taken, j);
    AvailableIsStratum(c, rows, a.system, a.visibility, a.long);
    AvailableIsStratum(c, rows, b.system, b.visibility, b.long);
  }
}
