/** Whole runs: an ingest followed by any number of generated batches, each applied once or replayed. */
module ScaleRuns {
  import opened Prelude
  import opened Corpus
  import opened ScaleTables
  import opened ScaleRows
  import opened ScaleState
  import opened ScaleIngest
  import opened ScaleBatch
  import opened ScaleConstraints
  import opened ScaleReplay
  import opened ScaleSchema
  import opened ScaleView
  import opened Updates
  import ScaleDatabase

  /** One step of a run: the options of the batch and how often it is replayed right after it was applied. */
  datatype UpdateStep = UpdateStep(updateCount: int, deletionEvery: int, replays: nat)

  /** No step of the run is refused by `generateScaleUpdateBatch`. */
  predicate RunFits(c: ScaleCorpus, steps: seq<UpdateStep>)
    decreases |steps|
  {
    steps == [] ||
    (ValidUpdate(c, steps[0].updateCount, steps[0].deletionEvery)
     && RunFits(UpdatedCorpus(c, steps[0].updateCount, steps[0].deletionEvery), steps[1..]))
  }

  function FinalCorpus(c: ScaleCorpus, steps: seq<UpdateStep>): ScaleCorpus
    requires RunFits(c, steps)
    decreases |steps|
  {
    if steps == [] then c
    else FinalCorpus(UpdatedCorpus(c, steps[0].updateCount, steps[0].deletionEvery), steps[1..])
  }

  function Repeated(db: Db, b: UpdateBatch, times: nat): Db {
    if times == 0 then db else Apply(Repeated(db, b, times - 1), b)
  }

  function FinalDb(db: Db, c: ScaleCorpus, steps: seq<UpdateStep>): Db
    requires RunFits(c, steps)
    decreases |steps|
  {
    if steps == [] then db
    else
      var b := BatchFor(c, steps[0].updateCount, steps[0].deletionEvery);
      FinalDb(Repeated(db, b, steps[0].replays + 1), b.corpus, steps[1..])
  }

  /** What the entries were at the start, carried through the run. */
  function FinalEntries(m: EntryMap, c: ScaleCorpus, steps: seq<UpdateStep>): EntryMap
    requires RunFits(c, steps)
    decreases |steps|
  {
    if steps == [] then m
    else
      var b := BatchFor(c, steps[0].updateCount, steps[0].deletionEvery);
      FinalEntries(Stepped(m, b.records), b.corpus, steps[1..])
  }

  lemma EligibleRecords(c: ScaleCorpus)
    requires WellFormed(c.records)
    ensures DistinctIds(Eligible(c))
    ensures forall i :: 0 <= i < |Eligible(c)| ==> Eligible(c)[i] in c.records && !Eligible(c)[i].deleted
  {
    DistinctRevisions(c.records);
    FilterMembers(c.records, IsLive);
    forall i | 0 <= i < |Eligible(c)|
      ensures Eligible(c)[i] in c.records && IsLive(Eligible(c)[i])
    {
      assert Eligible(c)[i] in Eligible(c);
    }
  }

  lemma UpdatedRecordSteps(r: Record, index: nat, every: nat)
    requires WellFormedRecord(r) && !r.deleted && every > 0
    ensures UpdatedRecord(r, index, every).id == r.id && StepOf(r, UpdatedRecord(r, index, every))
  {
    if index % every != 0 {
      assert Last(r.versions + [NextVersion(r)]) == NextVersion(r);
    }
  }

  /** A generated batch deletes or extends live records of the corpus, each at most once. */
  lemma GeneratedBatchSteps(m: EntryMap, c: ScaleCorpus, updateCount: int, deletionEvery: int)
    requires WellFormedEntries(m) && EntriesOf(m, c.records) && ValidUpdate(c, updateCount, deletionEvery)
    ensures StepsOf(m, BatchRecords(c, updateCount, deletionEvery))
  {
    hide ById, StepOf, UpdatedRecord, Eligible, WellFormedRecord;
    EligibleRecords(c);
    var chosen := Eligible(c)[..updateCount];
    var bs := BatchRecords(c, updateCount, deletionEvery);
    forall i | 0 <= i < |bs|
      ensures bs[i].id == chosen[i].id && bs[i].id in m && StepOf(m[bs[i].id].record, bs[i])
    {
      var j :| 0 <= j < |c.records| && c.records[j] == chosen[i];
      ByIdAt(c.records, j);
      UpdatedRecordSteps(chosen[i], i, deletionEvery);
    }
  }

  lemma {:induction false} RepeatedIsOnce(db: Db, b: UpdateBatch, replays: nat)
    requires EmbeddingsRefer(db.embeddings, db.documents)
    ensures Repeated(db, b, replays + 1) == Apply(db, b)
  {
    hide Apply, EmbeddingsRefer;
    if replays > 0 {
      RepeatedIsOnce(db, b, replays - 1);
      ReplayIsIdempotent(db, b);
    } else {
      assert Repeated(db, b, 0) == db;
    }
  }

  /** Along a whole run the database stays described by the entries. */
  lemma {:induction false} RunTracks(db: Db, m: EntryMap, c: ScaleCorpus, steps: seq<UpdateStep>)
    requires Tracks(db, m, c.records) && RunFits(c, steps) && Anchored(db)
    ensures Tracks(FinalDb(db, c, steps), FinalEntries(m, c, steps), FinalCorpus(c, steps).records)
    ensures Anchored(FinalDb(db, c, steps))
    decreases |steps|
  {
    hide Tracks, StepsOf, EntriesOf, WellFormedEntries, Apply, Stepped, EmbeddingsRefer, Anchored, Replaced,
      BatchRecords;
    if steps != [] {
      var b := BatchFor(c, steps[0].updateCount, steps[0].deletionEvery);
      TracksEntries(db, m, c.records);
      GeneratedBatchSteps(m, c, steps[0].updateCount, steps[0].deletionEvery);
      BatchTracks(db, m, c.records, b);
      AnchoredEmbeddings(db);
      RepeatedIsOnce(db, b, steps[0].replays);
      BatchKeepsAnchored(db, b);
      RunTracks(Apply(db, b), Stepped(m, b.records), b.corpus, steps[1..]);
    }
  }

  lemma AnchoredEmbeddings(db: Db)
    requires Anchored(db)
    ensures EmbeddingsRefer(db.embeddings, db.documents)
  {
  }

  lemma TracksEntries(db: Db, m: EntryMap, rs: seq<Record>)
    requires Tracks(db, m, rs)
    ensures WellFormedEntries(m) && EntriesOf(m, rs)
  {
  }

  /** Incremental maintenance equals rebuilding: after any run, with or without replays, the database
      has the view that ingesting the final corpus from scratch gives. */
  lemma IncrementalEqualsRebuild(c: ScaleCorpus, steps: seq<UpdateStep>)
    requires WellFormed(c.records) && RunFits(c, steps)
    ensures WellFormed(FinalCorpus(c, steps).records)
    ensures View(FinalDb(Ingest(EMPTY_DB, c), c, steps)) == View(Ingest(EMPTY_DB, FinalCorpus(c, steps)))
  {
    hide Tracks, Ingest, View, WellFormed, EntriesOf, WellFormedEntries, Fresh, Anchored;
    var db, last := Ingest(EMPTY_DB, c), FinalCorpus(c, steps);
    IngestTracks(c);
    IngestAnchors(c);
    RunTracks(db, Fresh(c.records), c, steps);
    TracksEntries(FinalDb(db, c, steps), FinalEntries(Fresh(c.records), c, steps), last.records);
    assert WellFormed(last.records) by { EntriesAreWellFormed(FinalEntries(Fresh(c.records), c, steps), last.records); }
    IngestTracks(last);
    ViewIsDetermined(FinalDb(db, c, steps), FinalEntries(Fresh(c.records), c, steps), Ingest(EMPTY_DB, last),
                     Fresh(last.records), last.records);
  }

  lemma EntriesAreWellFormed(m: EntryMap, rs: seq<Record>)
    requires EntriesOf(m, rs)
    ensures WellFormed(rs)
  {
  }

  lemma UpdatedWellFormed(c: ScaleCorpus, updateCount: int, deletionEvery: int)
    requires WellFormed(c.records) && ValidUpdate(c, updateCount, deletionEvery)
    ensures WellFormed(UpdatedCorpus(c, updateCount, deletionEvery).records)
    ensures DistinctIds(BatchRecords(c, updateCount, deletionEvery))
  {
    hide StepOf, BatchRecords, Fresh, WellFormedEntries, EntriesOf;
    FreshEntries(c.records);
    GeneratedBatchSteps(Fresh(c.records), c, updateCount, deletionEvery);
    ReplacedIds(Fresh(c.records), c.records, BatchRecords(c, updateCount, deletionEvery));
  }

  // ---- What the schema asks of a run

  /** No batch of the run is refused, and the schema can store the records it ends with. */
  ghost predicate RunStorable(c: ScaleCorpus, steps: seq<UpdateStep>) {
    RunFits(c, steps) && Storable(FinalCorpus(c, steps).records)
  }

  /** A batch only adds versions: records that can be told apart after it could be told apart before it. */
  lemma StorableBefore(m: EntryMap, rs: seq<Record>, bs: seq<Record>)
    requires Ready(m, bs) && EntriesOf(m, rs) && Storable(Replaced(rs, bs))
    ensures Storable(rs)
  {
    hide Ready, EntriesOf, DistinctHashes, ClientMap;
    ClientsKept(m, rs, bs);
    var after := Replaced(rs, bs);
    forall i | 0 <= i < |rs|
      ensures DistinctHashes(rs[i])
      ensures after[i].sourceSystem == rs[i].sourceSystem && after[i].external == rs[i].external
    {
      ReplacedKeepsIdentity(m, rs, bs, i);
      ReplacedKeepsVersions(m, rs, bs, i);
      FewerHashes(rs[i], after[i]);
    }
  }

  lemma ReplacedKeepsVersions(m: EntryMap, rs: seq<Record>, bs: seq<Record>, i: nat)
    requires Ready(m, bs) && EntriesOf(m, rs) && i < |rs|
    ensures rs[i].versions <= Replaced(rs, bs)[i].versions
  {
    hide Stepped, WellFormedEntry;
    ByIdAt(rs, i);
    StepEntry(m, bs, rs[i].id);
  }

  lemma FewerHashes(r: Record, r': Record)
    requires r.versions <= r'.versions && DistinctHashes(r')
    ensures DistinctHashes(r)
  {
    forall i, j | 0 <= i < j < |r.versions|
      ensures r.versions[i].contentHashKey != r.versions[j].contentHashKey
    {
      assert r'.versions[i] == r.versions[i] && r'.versions[j] == r.versions[j];
    }
  }

  lemma StorableBeforeUpdate(c: ScaleCorpus, updateCount: int, deletionEvery: int)
    requires WellFormed(c.records) && ValidUpdate(c, updateCount, deletionEvery)
    requires Storable(UpdatedCorpus(c, updateCount, deletionEvery).records)
    ensures Storable(c.records)
  {
    hide StepOf, BatchRecords, Fresh, WellFormedEntries, EntriesOf, Storable, WellFormed;
    FreshEntries(c.records);
    GeneratedBatchSteps(Fresh(c.records), c, updateCount, deletionEvery);
    StorableBefore(Fresh(c.records), c.records, BatchRecords(c, updateCount, deletionEvery));
  }

  lemma {:induction false} StorableBeforeRun(c: ScaleCorpus, steps: seq<UpdateStep>)
    requires WellFormed(c.records) && RunStorable(c, steps)
    ensures Storable(c.records)
    decreases |steps|
  {
    hide WellFormed, Storable, UpdatedCorpus, BatchRecords, ValidUpdate;
    if steps != [] {
      UpdatedWellFormed(c, steps[0].updateCount, steps[0].deletionEvery);
      StorableBeforeRun(UpdatedCorpus(c, steps[0].updateCount, steps[0].deletionEvery), steps[1..]);
      StorableBeforeUpdate(c, steps[0].updateCount, steps[0].deletionEvery);
    }
  }

  /** An empty workspace takes a corpus if and only if its records can be told apart. */
  lemma IngestIsStorable(c: ScaleCorpus)
    requires WellFormed(c.records)
    ensures IngestStorable(EMPTY_DB, c) <==> Storable(c.records)
  {
    hide Tracks, Ingest, IngestFits, WellFormed, Storable, Anchored, Fresh, SchemaHolds, EMPTY_DB;
    IngestTracks(c);
    IngestAnchors(c);
    SchemaHoldsExactly(Ingest(EMPTY_DB, c), Fresh(c.records), c.records);
  }

  /** A described database takes a generated batch if and only if the updated records can be told apart. */
  lemma BatchIsStorable(db: Db, m: EntryMap, c: ScaleCorpus, updateCount: int, deletionEvery: int)
    requires Tracks(db, m, c.records) && Anchored(db) && ValidUpdate(c, updateCount, deletionEvery)
    ensures var b := BatchFor(c, updateCount, deletionEvery);
            && Tracks(Apply(db, b), Stepped(m, b.records), b.corpus.records) && Anchored(Apply(db, b))
            && (SchemaHolds(Apply(db, b)) <==> Storable(b.corpus.records))
  {
    hide Tracks, StepsOf, EntriesOf, WellFormedEntries, Apply, Stepped, Anchored, Replaced, BatchRecords, SchemaHolds,
      Storable;
    var b := BatchFor(c, updateCount, deletionEvery);
    TracksEntries(db, m, c.records);
    GeneratedBatchSteps(m, c, updateCount, deletionEvery);
    BatchTracks(db, m, c.records, b);
    BatchKeepsAnchored(db, b);
    SchemaHoldsExactly(Apply(db, b), Stepped(m, b.records), b.corpus.records);
  }

  // ---- The methods

  datatype RunError = UpdateRefused(update: UpdateError) | ConstraintViolated

  /** Generates one batch and applies it, as often as the step says. */
  method ApplyStep(db: ScaleDatabase.Database, c: ScaleCorpus, step: UpdateStep, ghost m: EntryMap)
    returns (r: Result<ScaleCorpus, RunError>)
    requires WellFormed(c.records) && db.Valid() && Tracks(db.Tables(), m, c.records) && Anchored(db.Tables())
    modifies db
    ensures db.Valid()
    ensures r.Success? <==>
            && ValidUpdate(c, step.updateCount, step.deletionEvery)
            && Storable(UpdatedCorpus(c, step.updateCount, step.deletionEvery).records)
    ensures r.Success? ==> r.value == UpdatedCorpus(c, step.updateCount, step.deletionEvery)
    ensures r.Success? ==>
              db.Tables() == Repeated(old(db.Tables()), BatchFor(c, step.updateCount, step.deletionEvery),
                                      step.replays + 1)
    ensures r.Failure? ==> db.Tables() == old(db.Tables())
  {
    hide WellFormed, DistinctIds, Apply, BatchRecords, UpdatedCorpus, ScaleDatabase.Database.Tables, Tracks, Anchored,
      EmbeddingsRefer, ScaleDatabase.Database.Valid, SchemaHolds, Storable, ValidUpdate;
    var batch := GenerateScaleUpdateBatch(c, step.updateCount, step.deletionEvery);
    if batch.Failure? {
      return Failure(UpdateRefused(batch.error));
    }
    UpdatedWellFormed(c, step.updateCount, step.deletionEvery);
    BatchIsStorable(db.Tables(), m, c, step.updateCount, step.deletionEvery);
    AnchoredEmbeddings(db.Tables());
    for j := 0 to step.replays + 1
      invariant db.Valid() && db.Tables() == Repeated(old(db.Tables()), batch.value, j)
      invariant j > 0 ==> SchemaHolds(Apply(old(db.Tables()), batch.value))
    {
      RepeatedIsOnce(old(db.Tables()), batch.value, j);
      var done := db.ApplyScaleUpdateBatch(batch.value);
      if done == None {
        return Failure(ConstraintViolated);
      }
    }
    return Success(batch.value.corpus);
  }

  lemma RunUnfolds(db: Db, c: ScaleCorpus, steps: seq<UpdateStep>, n: nat)
    requires n < |steps|
    ensures var s, rest := steps[n], steps[n + 1..];
            && (RunFits(c, steps[n..]) <==>
                ValidUpdate(c, s.updateCount, s.deletionEvery)
                && RunFits(UpdatedCorpus(c, s.updateCount, s.deletionEvery), rest))
            && (RunFits(c, steps[n..]) ==>
                  var b := BatchFor(c, s.updateCount, s.deletionEvery);
                  && FinalCorpus(c, steps[n..]) == FinalCorpus(b.corpus, rest)
                  && FinalDb(db, c, steps[n..]) == FinalDb(Repeated(db, b, s.replays + 1), b.corpus, rest))
  {
    hide Apply, BatchRecords, UpdatedCorpus, Repeated;
    assert steps[n..][0] == steps[n] && steps[n..][1..] == steps[n + 1..];
  }

  lemma RunEnds(db: Db, c: ScaleCorpus, steps: seq<UpdateStep>)
    ensures RunFits(c, steps[|steps|..]) && FinalCorpus(c, steps[|steps|..]) == c
            && FinalDb(db, c, steps[|steps|..]) == db
    ensures steps[0..] == steps
  {
  }

  /** A step that the schema refuses makes the rest of the run unstorable. */
  lemma RefusedStep(c: ScaleCorpus, steps: seq<UpdateStep>, n: nat)
    requires WellFormed(c.records) && n < |steps| && RunStorable(c, steps[n..])
    ensures var s := steps[n];
            && ValidUpdate(c, s.updateCount, s.deletionEvery)
            && Storable(UpdatedCorpus(c, s.updateCount, s.deletionEvery).records)
  {
    hide WellFormed, Storable, UpdatedCorpus, BatchRecords, ValidUpdate;
    var s := steps[n];
    assert steps[n..][0] == s && steps[n..][1..] == steps[n + 1..];
    UpdatedWellFormed(c, s.updateCount, s.deletionEvery);
    StorableBeforeRun(UpdatedCorpus(c, s.updateCount, s.deletionEvery), steps[n + 1..]);
  }

  lemma StepTracks(db: Db, m: EntryMap, c: ScaleCorpus, s: UpdateStep)
    requires Tracks(db, m, c.records) && Anchored(db) && ValidUpdate(c, s.updateCount, s.deletionEvery)
    ensures var b := BatchFor(c, s.updateCount, s.deletionEvery);
            && Tracks(Repeated(db, b, s.replays + 1), Stepped(m, b.records), b.corpus.records)
            && Anchored(Repeated(db, b, s.replays + 1))
  {
    hide Tracks, Apply, Stepped, Anchored, EmbeddingsRefer, BatchRecords, UpdatedCorpus;
    BatchIsStorable(db, m, c, s.updateCount, s.deletionEvery);
    AnchoredEmbeddings(db);
    RepeatedIsOnce(db, BatchFor(c, s.updateCount, s.deletionEvery), s.replays);
  }

  /** All batches of a run, one after the other, until one is refused. */
  method ApplySteps(db: ScaleDatabase.Database, c: ScaleCorpus, steps: seq<UpdateStep>, ghost m: EntryMap)
    returns (r: Result<ScaleCorpus, RunError>)
    requires WellFormed(c.records) && db.Valid() && Tracks(db.Tables(), m, c.records) && Anchored(db.Tables())
    requires Storable(c.records)
    modifies db
    ensures db.Valid()
    ensures r.Success? <==> RunStorable(c, steps)
    ensures r.Success? ==> r.value == FinalCorpus(c, steps) && db.Tables() == FinalDb(old(db.Tables()), c, steps)
  {
    hide Apply, WellFormed, ScaleDatabase.Database.Tables, ScaleDatabase.Database.Valid, BatchRecords, UpdatedCorpus,
      Repeated, RunFits, FinalCorpus, FinalDb, ValidUpdate, Tracks, Anchored, Stepped, Storable;
    var last, n := c, 0;
    ghost var entries := m;
    RunEnds(db.Tables(), last, steps);
    while n < |steps|
      invariant 0 <= n <= |steps| && WellFormed(last.records) && Storable(last.records)
      invariant db.Valid() && Tracks(db.Tables(), entries, last.records) && Anchored(db.Tables())
      invariant RunFits(c, steps) <==> RunFits(last, steps[n..])
      invariant RunFits(c, steps) ==> FinalCorpus(c, steps) == FinalCorpus(last, steps[n..])
      invariant RunFits(c, steps) ==> FinalDb(old(db.Tables()), c, steps) == FinalDb(db.Tables(), last, steps[n..])
    {
      RunUnfolds(db.Tables(), last, steps, n);
      ghost var before := db.Tables();
      var next := ApplyStep(db, last, steps[n], entries);
      if next.Failure? {
        if RunStorable(c, steps) {
          RefusedStep(last, steps, n);
        }
        return Failure(next.error);
      }
      UpdatedWellFormed(last, steps[n].updateCount, steps[n].deletionEvery);
      StepTracks(before, entries, last, steps[n]);
      entries := Stepped(entries, BatchRecords(last, steps[n].updateCount, steps[n].deletionEvery));
      last := next.value;
      n := n + 1;
    }
    RunEnds(db.Tables(), last, steps);
    r := Success(last);
  }

  /** The benchmark run itself: load a corpus into a new workspace, then generate and apply batch after batch. */
  method RunBenchmark(c: ScaleCorpus, steps: seq<UpdateStep>)
    returns (db: ScaleDatabase.Database, r: Result<ScaleCorpus, RunError>)
    requires WellFormed(c.records)
    ensures r.Success? <==> RunStorable(c, steps)
    ensures r.Success? ==> r.value == FinalCorpus(c, steps) && View(db.Tables()) == View(Ingest(EMPTY_DB, r.value))
    ensures r.Success? ==> SchemaHolds(db.Tables())
  {
    hide Ingest, View, WellFormed, ScaleDatabase.Database.Tables, IngestStorable, Tracks, RunFits, FinalCorpus, FinalDb,
      EMPTY_DB, Storable, Anchored, Fresh, SchemaHolds;
    db := new ScaleDatabase.Database();
    IngestTracks(c);
    IngestAnchors(c);
    IngestIsStorable(c);
    var loaded := db.IngestScaleCorpus(c);
    if loaded == None {
      if RunStorable(c, steps) {
        StorableBeforeRun(c, steps);
      }
      return db, Failure(ConstraintViolated);
    }
    r := ApplySteps(db, c, steps, Fresh(c.records));
    if r.Success? {
      IncrementalEqualsRebuild(c, steps);
    }
  }
}
