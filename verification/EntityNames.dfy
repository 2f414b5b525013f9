/** The normalised entity names: written by the ingest, never refreshed by a batch. */
module EntityNames {
  import opened Prelude
  import opened Corpus
  import opened Text
  import opened Statements
  import opened RecordRows
  import opened ScaleTables
  import opened ScaleRows
  import opened ScaleState
  import opened ScaleBatch
  import opened ScaleRuns
  import opened ScaleReachable
  import opened Updates
  import opened ScaleView
  import opened Generator
  import opened Lineage
  import opened Validator
  import opened CorpusRuns

  lemma {:induction false} FindName(rows: seq<Row<Resource>>, k: Id)
    ensures Find(Map(rows, EntityNameRow), k) == match Find(rows, k) case None => None case Some(v) =>
                                                   Some(Normalize(v.name, ' '))
  {
    hide Normalize;
    if rows != [] {
      FindName(rows[1..], k);
      assert Map(rows, EntityNameRow)[1..] == Map(rows[1..], EntityNameRow);
    }
  }

  lemma SharedHasNoEvidence(rs: seq<Record>, o: Id)
    requires WellFormed(rs)
    ensures Find(SharedRows(rs), EvidenceResource(o)) == None
  {
    hide SharedRows;
    SharedRowsDisjoint(rs);
    FindKeys(SharedRows(rs));
  }

  lemma IngestEntities(c: ScaleCorpus)
    ensures Ingest(EMPTY_DB, c).entities == Inserted(map[], EntityNameRows(c.records))
  {
    hide Inserted, EntityNameRows, ResourceRows, Flat;
  }

  lemma ApplyKeepsEntities(db: Db, b: UpdateBatch)
    ensures Apply(db, b).entities == db.entities
  {
    hide ApplySources, ApplyResources, ApplyContentObjects, ApplySourceObjects, ApplySourceVersions,
      ApplyContentVersions, ApplyAssertions,
      ApplyProvenance, Reindex, Deactivate, RetireEmbeddings, ApplyCandidates, ApplyIdentityKeys, ApplySyncRuns,
      Revisions;
  }

  /** What the ingest writes for a record: the normalised title of its latest version. */
  lemma IngestedName(c: ScaleCorpus, i: nat)
    requires WellFormed(c.records) && i < |c.records|
    ensures var k := EvidenceResource(c.records[i].id);
            k in Ingest(EMPTY_DB, c).entities
            && Ingest(EMPTY_DB, c).entities[k] == Normalize(Latest(c.records[i]).title, ' ')
  {
    hide Normalize, WellFormedRecord, DistinctIds, SharedRows, Ingest, Flat, ById;
    IngestEntities(c);
    OwnedRows();
    var rs, r := c.records, c.records[i];
    var k := EvidenceResource(r.id);
    SharedHasNoEvidence(rs, r.id);
    FindAppend(SharedRows(rs), Flat(rs, EvidenceRows), k);
    FindFlat(rs, EvidenceRows, k);
    ByIdAt(rs, i);
    FindOne(Row({EvidenceResource(r.id)}, Evidence(r)), k);
    FindName(EntityRows(rs), k);
    FindKeys(EntityNameRows(rs));
  }

  lemma {:induction false} NamesNeverChange(db: Db, c: ScaleCorpus, steps: seq<UpdateStep>)
    requires RunFits(c, steps)
    ensures FinalDb(db, c, steps).entities == db.entities
    decreases |steps|
  {
    hide BatchRecords, UpdatedCorpus, ValidUpdate, Repeated;
    if steps != [] {
      var b := BatchFor(c, steps[0].updateCount, steps[0].deletionEvery);
      RepeatedKeepsNames(db, b, steps[0].replays + 1);
      NamesNeverChange(Repeated(db, b, steps[0].replays + 1), b.corpus, steps[1..]);
    }
  }

  lemma {:induction false} RepeatedKeepsNames(db: Db, b: UpdateBatch, times: nat)
    ensures Repeated(db, b, times).entities == db.entities
  {
    hide Apply;
    if times > 0 {
      RepeatedKeepsNames(db, b, times - 1);
      ApplyKeepsEntities(Repeated(db, b, times - 1), b);
    }
  }

  /** After a run the entity name of a record is the one a rebuild would give exactly when the normalised titles of its
      first loaded and its final version are equal. */
  lemma NameIsFreshWhenTitleIsKept(c: ScaleCorpus, steps: seq<UpdateStep>, i: nat, j: nat)
    requires WellFormed(c.records) && RunFits(c, steps) && i < |c.records| && j < |FinalCorpus(c, steps).records|
    requires c.records[i].id == FinalCorpus(c, steps).records[j].id
    ensures var k, last := EvidenceResource(c.records[i].id), FinalCorpus(c, steps);
            && k in Reached(c, steps).entities && k in Ingest(EMPTY_DB, last).entities
            && (Reached(c, steps).entities[k] == Ingest(EMPTY_DB, last).entities[k] <==>
                Normalize(Latest(c.records[i]).title, ' ') == Normalize(Latest(last.records[j]).title, ' '))
  {
    hide Normalize, Ingest, FinalDb, FinalCorpus, WellFormed, View, EMPTY_DB;
    NamesNeverChange(Ingest(EMPTY_DB, c), c, steps);
    IncrementalEqualsRebuild(c, steps);
    IngestedName(c, i);
    IngestedName(FinalCorpus(c, steps), j);
  }

  // ---- Titles of different versions stay different when normalised

  lemma {:induction false} CollapseSlug(head: string, tail: string, separator: char)
    requires forall i :: 0 <= i < |tail| ==> 'a' <= tail[i] <= 'z' || '0' <= tail[i] <= '9'
    ensures Collapse(head + tail, separator) == Collapse(head, separator) + tail
  {
    if tail == "" {
      assert head + tail == head;
    } else {
      assert DropLast(head + tail) == head + DropLast(tail);
      CollapseSlug(head, DropLast(tail), separator);
      assert Collapse(head, separator) + tail == Collapse(head, separator) + DropLast(tail) + [Last(tail)];
    }
  }

  lemma TrimmedEnd(collapsed: string, tail: string)
    requires tail != "" && |tail| < |collapsed| && EndsWith(collapsed, tail) && Last(tail) != ' '
    ensures EndsWith(TrimEnd(TrimStart(collapsed + [' '], ' '), ' '), tail)
  {
    var kept := if collapsed[0] == ' ' then 1 else 0;
    assert TrimStart(collapsed + [' '], ' ') == collapsed[kept..] + [' '];
    assert TrimEnd(collapsed[kept..] + [' '], ' ') == collapsed[kept..];
    assert collapsed[kept..][|collapsed| - kept - |tail|..] == collapsed[|collapsed| - |tail|..];
  }

  /** The closing bracket goes, the number stays. */
  lemma NormalizedEnd(head: string, digits: string)
    requires digits != "" && forall i :: 0 <= i < |digits| ==> '0' <= digits[i] <= '9'
    ensures EndsWith(Normalize(head + "(v" + digits + ")", ' '), "v" + digits)
  {
    hide Collapse, TrimStart, TrimEnd;
    var tail := "v" + digits;
    var start := head + "(" + tail;
    assert head + "(v" + digits + ")" == start + [')'];
    CollapseSlug(head + "(", tail, ' ');
    CollapseBracket(start);
    CollapseOpens(head);
    var collapsed := Collapse(head + "(", ' ') + tail;
    assert collapsed[|collapsed| - |tail|..] == tail;
    TrimmedEnd(collapsed, tail);
  }

  lemma {:induction false} CollapseOpens(head: string)
    ensures Collapse(head + "(", ' ') != ""
  {
    var s := head + "(";
    if |s| > 1 && !IsSlugChar(LowerChar(s[|s| - 2])) {
      CollapseSome(DropLast(s));
    }
  }

  lemma {:induction false} CollapseSome(s: string)
    requires s != ""
    ensures Collapse(s, ' ') != ""
  {
    if |s| > 1 && !IsSlugChar(LowerChar(Last(s))) && !IsSlugChar(LowerChar(s[|s| - 2])) {
      CollapseSome(DropLast(s));
    }
  }

  lemma CollapseBracket(start: string)
    requires start != "" && IsSlugChar(LowerChar(Last(start)))
    ensures Collapse(start + [')'], ' ') == Collapse(start, ' ') + [' ']
  {
    assert DropLast(start + [')']) == start;
    assert (start + [')'])[|start| - 1] == Last(start);
  }

  lemma SameEnd(s: string, a: string, b: string)
    requires EndsWith(s, "v" + a) && EndsWith(s, "v" + b)
    requires forall i :: 0 <= i < |a| ==> '0' <= a[i] <= '9'
    requires forall i :: 0 <= i < |b| ==> '0' <= b[i] <= '9'
    ensures a == b
  {
    var n := |s|;
    EndIs(s, a);
    EndIs(s, b);
    assert |a| == |b|;
    assert a == s[n - |a|..] && b == s[n - |b|..];
  }

  lemma EndIs(s: string, a: string)
    requires EndsWith(s, "v" + a) && forall i :: 0 <= i < |a| ==> '0' <= a[i] <= '9'
    ensures |a| < |s| && s[|s| - |a| - 1] == 'v' && s[|s| - |a|..] == a
    ensures forall i :: |s| - |a| <= i < |s| ==> '0' <= s[i] <= '9'
  {
    var end := s[|s| - |a| - 1..];
    assert end == "v" + a;
    assert end[0] == 'v' && end[1..] == a;
    forall i | |s| - |a| <= i < |s|
      ensures s[i] == a[i - (|s| - |a|)]
    {
      assert end[i - (|s| - |a|) + 1] == s[i];
    }
  }

  lemma NumbersDecide(v: Version, w: Version)
    requires v.version >= 0 && w.version >= 0 && TitleNumbered(v) && TitleNumbered(w)
    requires Normalize(v.title, ' ') == Normalize(w.title, ' ')
    ensures v.version == w.version
  {
    hide Normalize, Decimal;
    NumberedEnd(v);
    NumberedEnd(w);
    DecimalDigits(v.version);
    DecimalDigits(w.version);
    SameEnd(Normalize(v.title, ' '), Decimal(v.version), Decimal(w.version));
    DecimalInjective(v.version, w.version);
  }

  lemma NumberedEnd(v: Version)
    requires v.version >= 0 && TitleNumbered(v)
    ensures EndsWith(Normalize(v.title, ' '), "v" + Decimal(v.version))
  {
    hide Normalize, Decimal;
    var digits := Decimal(v.version);
    DecimalDigits(v.version);
    var suffix := "(v" + digits + ")";
    var head := v.title[..|v.title| - |suffix|];
    assert v.title == head + suffix;
    assert head + suffix == head + "(v" + digits + ")";
    NormalizedEnd(head, digits);
  }

  lemma GeneratedTitle(o: CorpusOptions, i: nat, v: nat)
    requires ValidOptions(o) && v < |RecordAt(o, i).versions|
    ensures TitleNumbered(RecordAt(o, i).versions[v])
  {
    hide SourceReference, IssueAt, Body, BodyTail, ClientName, ProjectName, DuplicateMarkerAt, SystemAt, VisibilityAt,
      Decimal;
    hide ProjectIndexAt, CycleAt, ClientIndexAt, OrdinalAt, ProjectCount, EndsWith;
    var r := RecordAt(o, i);
    var made := BuildVersion(i, v + 1, r.sourceSystem, r.canonicalClientName, r.canonicalProjectName,
                             ISSUES[IssueAt(o.seed, i)], DuplicateMarkerAt(i), i % 23 == 0);
    assert r.versions[v] == made;
    var head := r.canonicalProjectName + ": " + ISSUES[IssueAt(o.seed, i)] + " ";
    EndOfTitle(head, Decimal(v + 1));
    assert made.title == head + "(v" + Decimal(v + 1) + ")";
  }

  lemma LatestTitle(o: CorpusOptions, c: ScaleCorpus, i: nat)
    requires Grown(o, c) && i < |c.records|
    ensures TitleNumbered(Latest(c.records[i])) && Latest(c.records[i]).version == |c.records[i].versions| > 0
  {
    hide RecordAt, QuestionsAnswered, TitleNumbered;
    GrownRecordOk(o, c, i);
    var base, r := RecordAt(o, i), c.records[i];
    assert Descends(base, r);
    var n := |r.versions| - 1;
    if n < |base.versions| {
      assert r.versions[n] == base.versions[n];
      GeneratedTitle(o, i, n);
    } else {
      assert Continues(r.versions[n - 1], r.versions[n]);
    }
  }

  // ---- What a run keeps

  lemma UpdateKeepsPlaces(c: ScaleCorpus, updateCount: int, deletionEvery: int)
    requires WellFormed(c.records) && ValidUpdate(c, updateCount, deletionEvery)
    ensures var rs := UpdatedCorpus(c, updateCount, deletionEvery).records;
            && |rs| == |c.records| && SharedRows(rs) == SharedRows(c.records)
            && forall i :: 0 <= i < |rs| ==> rs[i].id == c.records[i].id && c.records[i].versions <= rs[i].versions
  {
    hide StepOf, BatchRecords, Fresh, WellFormedEntries, EntriesOf, SharedRows, WellFormed, ById;
    FreshEntries(c.records);
    GeneratedBatchSteps(Fresh(c.records), c, updateCount, deletionEvery);
    var m, bs := Fresh(c.records), BatchRecords(c, updateCount, deletionEvery);
    SharedRowsKept(m, c.records, bs);
    forall i | 0 <= i < |c.records|
      ensures Replaced(c.records, bs)[i].id == c.records[i].id
              && c.records[i].versions <= Replaced(c.records, bs)[i].versions
    {
      ReplacedKeepsIdentity(m, c.records, bs, i);
      ReplacedKeepsVersions(m, c.records, bs, i);
    }
  }

  lemma {:induction false} RunKeepsPlaces(c: ScaleCorpus, steps: seq<UpdateStep>)
    requires WellFormed(c.records) && RunFits(c, steps)
    ensures var rs := FinalCorpus(c, steps).records;
            && |rs| == |c.records| && SharedRows(rs) == SharedRows(c.records) && WellFormed(rs)
            && forall i :: 0 <= i < |rs| ==> rs[i].id == c.records[i].id && c.records[i].versions <= rs[i].versions
    decreases |steps|
  {
    hide WellFormed, SharedRows, UpdatedCorpus, ValidUpdate, BatchRecords;
    if steps != [] {
      var next := UpdatedCorpus(c, steps[0].updateCount, steps[0].deletionEvery);
      UpdatedWellFormed(c, steps[0].updateCount, steps[0].deletionEvery);
      UpdateKeepsPlaces(c, steps[0].updateCount, steps[0].deletionEvery);
      RunKeepsPlaces(next, steps[1..]);
      var rs := FinalCorpus(next, steps[1..]).records;
      forall i | 0 <= i < |rs|
        ensures c.records[i].versions <= rs[i].versions
      {
        assert c.records[i].versions <= next.records[i].versions <= rs[i].versions;
      }
    }
  }

  /** The entity name of a row that is no evidence depends on the shared rows alone. */
  lemma SharedName(c: ScaleCorpus, k: Id)
    requires !k.EvidenceResource?
    ensures k in Ingest(EMPTY_DB, c).entities <==> Find(SharedRows(c.records), k).Some?
    ensures k in Ingest(EMPTY_DB, c).entities ==>
              Ingest(EMPTY_DB, c).entities[k] == Normalize(Find(SharedRows(c.records), k).value.name, ' ')
  {
    hide Normalize, SharedRows, Ingest, Flat, Owned;
    IngestEntities(c);
    var rs := c.records;
    FlatKeys(rs, EvidenceRows, (x: Id) => x.EvidenceResource?);
    FindKeys(Flat(rs, EvidenceRows));
    FindAppend(SharedRows(rs), Flat(rs, EvidenceRows), k);
    FindName(EntityRows(rs), k);
    FindKeys(EntityNameRows(rs));
  }

  /** Which entity names a run leaves as a rebuild would make them, for corpora grown from generated ones: those of
      clients, projects and hypotheses always, and that of an evidence resource if and only if no batch of the run
      revised its record. */
  lemma NamesAfterRun(o: CorpusOptions, c: ScaleCorpus, steps: seq<UpdateStep>)
    requires Grown(o, c) && RunFits(c, steps)
    ensures var kept, rebuilt := Reached(c, steps).entities, Ingest(EMPTY_DB, FinalCorpus(c, steps)).entities;
            && (forall k: Id :: !k.EvidenceResource? ==>
                                  (k in kept <==> k in rebuilt) && (k in kept ==> kept[k] == rebuilt[k]))
            && |FinalCorpus(c, steps).records| == |c.records|
            && (forall i :: 0 <= i < |c.records| ==>
                              var k := EvidenceResource(c.records[i].id);
                              && k in kept && k in rebuilt
                              && (kept[k] == rebuilt[k] <==>
                                  |FinalCorpus(c, steps).records[i].versions| == |c.records[i].versions|))
  {
    hide Normalize, Ingest, FinalDb, FinalCorpus, WellFormed, View, EMPTY_DB, Grown, SharedRows, Validates;
    var kept, rebuilt := Reached(c, steps).entities, Ingest(EMPTY_DB, FinalCorpus(c, steps)).entities;
    GrownValidates(o, c);
    RunKeepsPlaces(c, steps);
    NamesNeverChange(Ingest(EMPTY_DB, c), c, steps);
    forall k: Id | !k.EvidenceResource?
      ensures k in kept <==> k in rebuilt
      ensures k in kept ==> kept[k] == rebuilt[k]
    {
      SharedName(c, k);
      SharedName(FinalCorpus(c, steps), k);
    }
    forall i | 0 <= i < |c.records|
      ensures var k := EvidenceResource(c.records[i].id);
              && k in kept && k in rebuilt
              && (kept[k] == rebuilt[k] <==> |FinalCorpus(c, steps).records[i].versions| == |c.records[i].versions|)
    {
      EvidenceNameAfterRun(o, c, steps, i);
    }
  }

  lemma EvidenceNameAfterRun(o: CorpusOptions, c: ScaleCorpus, steps: seq<UpdateStep>, i: nat)
    requires Grown(o, c) && RunFits(c, steps) && i < |c.records| && |FinalCorpus(c, steps).records| == |c.records|
    ensures var k, kept, rebuilt := EvidenceResource(c.records[i].id), Reached(c, steps).entities,
                                    Ingest(EMPTY_DB, FinalCorpus(c, steps)).entities;
            && k in kept && k in rebuilt
            && (kept[k] == rebuilt[k] <==> |FinalCorpus(c, steps).records[i].versions| == |c.records[i].versions|)
  {
    hide Normalize, Ingest, Reached, FinalCorpus, WellFormed, View, EMPTY_DB, Grown, SharedRows, Validates,
      TitleNumbered;
    GrownValidates(o, c);
    RunKeepsPlaces(c, steps);
    RunKeepsGrown(o, c, steps);
    var before, after := c.records[i], FinalCorpus(c, steps).records[i];
    NameIsFreshWhenTitleIsKept(c, steps, i, i);
    LatestTitle(o, c, i);
    LatestTitle(o, FinalCorpus(c, steps), i);
    if |after.versions| == |before.versions| {
      assert after.versions == before.versions;
    } else if Normalize(Latest(before).title, ' ') == Normalize(Latest(after).title, ' ') {
      NumbersDecide(Latest(before), Latest(after));
    }
  }
}
