/** What holds of every database a run can reach. */
module ScaleReachable {
  import opened Corpus
  import opened Statements
  import opened ScaleTables
  import opened ScaleState
  import opened ScaleIngest
  import opened ScaleSchema
  import opened ScaleRuns
  import opened ScaleTimeline
  import opened ScaleConstraints
  import opened ScaleIntegrity

  function Reached(c: ScaleCorpus, steps: seq<UpdateStep>): Db
    requires RunFits(c, steps)
  {
    FinalDb(Ingest(EMPTY_DB, c), c, steps)
  }

  /** The entries that describe a reached database. */
  ghost function ReachedEntries(c: ScaleCorpus, steps: seq<UpdateStep>): EntryMap
    requires RunFits(c, steps)
  {
    FinalEntries(Fresh(c.records), c, steps)
  }

  lemma ReachedTracks(c: ScaleCorpus, steps: seq<UpdateStep>)
    requires WellFormed(c.records) && RunFits(c, steps)
    ensures Tracks(Reached(c, steps), ReachedEntries(c, steps), FinalCorpus(c, steps).records)
    ensures Anchored(Reached(c, steps))
  {
    hide Tracks, Ingest, WellFormed, Fresh, FinalDb, FinalEntries, FinalCorpus, Anchored;
    IngestTracks(c);
    IngestAnchors(c);
    RunTracks(Ingest(EMPTY_DB, c), Fresh(c.records), c, steps);
  }

  predicate HasOpenClaim(t: Table<Assertion>, r: Record) {
    exists k | k in t :: OpenClaim(t[k], r)
  }

  lemma EveryRecordHasOpenClaim(t: Table<Assertion>, m: EntryMap, rs: seq<Record>)
    requires EntriesOf(m, rs) && OpenClaims(t, m)
    ensures forall i :: 0 <= i < |rs| ==> HasOpenClaim(t, rs[i])
  {
    hide OpenClaim;
    forall i | 0 <= i < |rs|
      ensures HasOpenClaim(t, rs[i])
    {
      ByIdAt(rs, i);
      assert m[rs[i].id].record == rs[i];
    }
  }

  /** Every reached database: assertions form a timeline with one open claim per record, which is the record's
      latest version; no foreign key dangles; no two chunks of one content version share a number; the inspection
      reports no violation and counts exactly the records of the final corpus; and the whole schema holds if and
      only if the final records can be told apart. */
  lemma EveryRunKeepsIntegrity(c: ScaleCorpus, steps: seq<UpdateStep>)
    requires WellFormed(c.records) && RunFits(c, steps)
    ensures var db, rs := Reached(c, steps), FinalCorpus(c, steps).records;
            && Timeline(db.assertions) && ClaimsAreRelated(db.assertions, db.relationships)
            && (forall i :: 0 <= i < |rs| ==> HasOpenClaim(db.assertions, rs[i]))
            && ForeignKeysHold(db) && ChunksAreUnique(db.documents)
            && Sound(Inspect(db), rs)
            && (SchemaHolds(db) <==> Storable(rs))
  {
    hide Tracks, Reached, ReachedEntries, FinalCorpus, Timeline, ClaimsAreRelated, ForeignKeysHold, ChunksAreUnique,
      OpenClaims, HasOpenClaim,
      Inspect, OpenClaim, WellFormed, EntriesOf, WellFormedEntries, Anchored, SchemaHolds, Storable, Sound;
    var db, m, rs := Reached(c, steps), ReachedEntries(c, steps), FinalCorpus(c, steps).records;
    ReachedTracks(c, steps);
    AssertionTimeline(db, m, rs);
    ForeignKeysAlwaysHold(db, m, rs);
    ChunksAlwaysUnique(db, m, rs);
    IntegrityHolds(db, m, rs);
    SchemaHoldsExactly(db, m, rs);
    TracksEntries(db, m, rs);
    EveryRecordHasOpenClaim(db.assertions, m, rs);
  }
}
