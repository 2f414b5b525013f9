/** The benchmark script from end to end: generate, add questions, validate, load, update, inspect. */
module ScaleBenchmark {
  import opened Prelude
  import opened Corpus
  import opened Generator
  import opened Transformers
  import opened Updates
  import opened Validator
  import opened Lineage
  import opened CorpusRuns
  import opened ScaleTables
  import opened ScaleState
  import opened ScaleIntegrity
  import opened ScaleRuns
  import opened ScaleSchema
  import opened ScaleConstraints
  import opened ScaleReachable
  import opened ScaleView
  import ScaleDatabase

  datatype BenchmarkError = GenerationFailed(corpus: CorpusError) | UpdateFailed(update: UpdateError)

  /** The corpus the script prepares. */
  function Prepared(o: CorpusOptions): ScaleCorpus
    requires ValidOptions(o) && ProjectsAreLive(o)
  {
    WithVocabulary(CorpusOf(o))
  }

  lemma PreparedIsGrown(o: CorpusOptions)
    requires ValidOptions(o) && ProjectsAreLive(o)
    ensures Grown(o, CorpusOf(o)) && Grown(o, Prepared(o)) && VocabularyFits(CorpusOf(o))
    ensures Validates(Prepared(o)) && WellFormed(Prepared(o).records)
  {
    hide Grown, Validates, WellFormed, VocabularyFits, CorpusOf, ProjectsAreLive, WithVocabulary;
    GeneratedIsGrown(o);
    VocabularyAlwaysFits(o, CorpusOf(o));
    VocabularyKeepsGrown(o, CorpusOf(o));
    GrownValidates(o, Prepared(o));
  }

  lemma UpdatedValidates(o: CorpusOptions, c: ScaleCorpus, updateCount: int, deletionEvery: int)
    requires Grown(o, c) && ValidUpdate(c, updateCount, deletionEvery)
    ensures Validates(UpdatedCorpus(c, updateCount, deletionEvery))
  {
    hide Grown, Validates, UpdatedCorpus, WellFormed, ValidUpdate;
    UpdateKeepsGrown(o, c, updateCount, deletionEvery);
    GrownValidates(o, UpdatedCorpus(c, updateCount, deletionEvery));
  }

  /** The checks before the database is touched. Only bad options can make them fail: where the script would throw
      because a question cannot be worded or a corpus does not validate, an assertion says that this does not happen. */
  method Prepare(o: CorpusOptions, updateCount: int, deletionEvery: int)
    returns (r: Result<(ScaleCorpus, UpdateBatch), BenchmarkError>)
    ensures r.Success? <==>
            ValidOptions(o) && ProjectsAreLive(o) && ValidUpdate(Prepared(o), updateCount, deletionEvery)
    ensures r.Success? ==> r.value == (Prepared(o), BatchFor(Prepared(o), updateCount, deletionEvery))
  {
    hide ValidOptions, ProjectsAreLive, CorpusOf, WithVocabulary, Grown, Validates, WellFormed, VocabularyFits,
      UpdatedCorpus, BatchRecords, ValidUpdate;
    var generated := GenerateScaleCorpus(o);
    if generated.Failure? {
      return Failure(GenerationFailed(generated.error));
    }
    PreparedIsGrown(o);
    var extended := AddVocabularyMismatchQuestions(generated.value);
    assert extended.Success?;
    var errors := ValidateScaleCorpus(extended.value);
    assert errors == [];
    var batch := GenerateScaleUpdateBatch(extended.value, updateCount, deletionEvery);
    if batch.Failure? {
      return Failure(UpdateFailed(batch.error));
    }
    UpdatedValidates(o, extended.value, updateCount, deletionEvery);
    errors := ValidateScaleCorpus(batch.value.corpus);
    assert errors == [];
    r := Success((extended.value, batch.value));
  }

  /** The benchmark run: whatever the options, it either refuses them or ends with a database that inspects clean and
      looks like one built from the updated corpus. */
  method RunScaleBenchmark(o: CorpusOptions, updateCount: int, deletionEvery: int)
    returns (r: Result<(ScaleDatabase.Database, Integrity), BenchmarkError>)
    ensures r.Success? <==>
            ValidOptions(o) && ProjectsAreLive(o) && ValidUpdate(Prepared(o), updateCount, deletionEvery)
    ensures r.Success? ==>
              var updated := UpdatedCorpus(Prepared(o), updateCount, deletionEvery);
              && Sound(r.value.1, updated.records)
              && View(r.value.0.Tables()) == View(Ingest(EMPTY_DB, updated))
  {
    hide ValidOptions, ProjectsAreLive, Prepared, Grown, Validates, WellFormed, UpdatedCorpus, BatchFor, ValidUpdate,
      Ingest, Apply, View, Sound, Inspect, ScaleDatabase.Database.Tables, ScaleDatabase.Database.Valid,
      IngestStorable, SchemaHolds, Storable, EMPTY_DB, Tracks, RunStorable;
    var prepared := Prepare(o, updateCount, deletionEvery);
    if prepared.Failure? {
      return Failure(prepared.error);
    }
    var (corpus, batch) := prepared.value;
    PreparedIsGrown(o);
    var db := new ScaleDatabase.Database();
    OneStep(corpus, updateCount, deletionEvery);
    GrownIsStorable(o, corpus);
    IngestIsStorable(corpus);
    SchemaAlwaysHolds(o, corpus, [UpdateStep(updateCount, deletionEvery, 0)]);
    var loaded := db.IngestScaleCorpus(corpus);
    assert loaded.Some?;
    var applied := db.ApplyScaleUpdateBatch(batch);
    assert applied.Some?;
    EveryRunKeepsIntegrity(corpus, [UpdateStep(updateCount, deletionEvery, 0)]);
    IncrementalEqualsRebuild(corpus, [UpdateStep(updateCount, deletionEvery, 0)]);
    r := Success((db, Inspect(db.Tables())));
  }

  /** One batch, applied once, as a run. */
  lemma OneStep(c: ScaleCorpus, updateCount: int, deletionEvery: int)
    requires WellFormed(c.records) && ValidUpdate(c, updateCount, deletionEvery)
    ensures var steps := [UpdateStep(updateCount, deletionEvery, 0)];
            && RunFits(c, steps) && FinalCorpus(c, steps) == UpdatedCorpus(c, updateCount, deletionEvery)
            && Reached(c, steps) == Apply(Ingest(EMPTY_DB, c), BatchFor(c, updateCount, deletionEvery))
    ensures DistinctIds(BatchFor(c, updateCount, deletionEvery).records)
  {
    hide WellFormed, ValidUpdate, UpdatedCorpus, Ingest, Apply, BatchRecords, DistinctIds, EMPTY_DB;
    UpdatedWellFormed(c, updateCount, deletionEvery);
    var steps := [UpdateStep(updateCount, deletionEvery, 0)];
    var b, rest := BatchFor(c, updateCount, deletionEvery), steps[1..];
    assert rest == [];
    RunUnfolds(Ingest(EMPTY_DB, c), c, steps, 0);
    assert steps[0..] == steps;
    assert Repeated(Ingest(EMPTY_DB, c), b, 0) == Ingest(EMPTY_DB, c);
    assert Repeated(Ingest(EMPTY_DB, c), b, 1) == Apply(Ingest(EMPTY_DB, c), b);
  }
}
