/** What an ingest and a batch do to the rows that no single record owns: identity keys, cursors, sync runs and
    embeddings. Everything is said in terms of the records and of the tables before. */
module BatchEffects {
  import opened Prelude
  import opened Corpus
  import opened Statements
  import opened RecordRows
  import opened JsMap
  import opened ScaleTables
  import opened ScaleRows
  import opened ScaleState
  import opened ScaleIngest
  import opened ScaleConstraints
  import opened ScaleReplay

  // ---- Identity keys

  /** The source knows the record, without ambiguity, by the reference that the key stands for. */
  predicate KnownBy(r: Record, k: Id) {
    && !r.ambiguousAlias
    && (k == IdentityKeyId(r.sourceSystem, ClientRef, r.sourceClientReference)
        || k == IdentityKeyId(r.sourceSystem, ProjectRef, r.sourceProjectReference))
  }

  /** The last of the records in question that are known by the key. */
  ghost predicate LastKnownBy(rs: seq<Record>, among: Record -> bool, i: nat, k: Id) {
    && i < |rs| && among(rs[i]) && KnownBy(rs[i], k)
    && forall j :: i < j < |rs| && among(rs[j]) ==> !KnownBy(rs[j], k)
  }

  lemma PutAfter<K, V>(pairs: seq<(K, V)>, p: (K, V), k: K)
    ensures Get(FromPairs(pairs + [p]), k) == if p.0 == k then Some(p.1) else Get(FromPairs(pairs), k)
  {
    assert DropLast(pairs + [p]) == pairs;
    GetPut(FromPairs(pairs), p.0, p.1, k);
  }

  lemma PromotedAfter(rs: seq<Record>, r: Record, k: Id)
    ensures Get(PromotedKeys(rs + [r]), k) ==
            if r.ambiguousAlias then Get(PromotedKeys(rs), k)
            else if k == IdentityKeyId(r.sourceSystem, ProjectRef, r.sourceProjectReference) then
              Some(CandidateFor(r, ProjectRef))
            else if k == IdentityKeyId(r.sourceSystem, ClientRef, r.sourceClientReference) then
              Some(CandidateFor(r, ClientRef))
            else Get(PromotedKeys(rs), k)
  {
    hide FromPairs, CandidateFor;
    var pairs, own := Flat(rs, PromotedPairs), PromotedPairs(r);
    FlatAppend(rs, [r], PromotedPairs);
    assert [r][1..] == [];
    assert Flat([r], PromotedPairs) == own;
    if r.ambiguousAlias {
      assert pairs + own == pairs;
    } else {
      assert pairs + own == pairs + [own[0]] + [own[1]];
      PutAfter(pairs, own[0], k);
      PutAfter(pairs + [own[0]], own[1], k);
    }
  }

  /** A promoted key comes from the last record known by it, and is absent when there is none. */
  lemma {:induction false} PromotedIsLast(rs: seq<Record>, among: Record -> bool, k: Id)
    ensures (forall i :: 0 <= i < |rs| && among(rs[i]) ==> !KnownBy(rs[i], k)) ==>
              Get(PromotedKeys(Filter(rs, among)), k) == None
    ensures forall i: nat :: LastKnownBy(rs, among, i, k) ==>
                               PromotedFrom(rs[i], k, Get(PromotedKeys(Filter(rs, among)), k))
  {
    hide PromotedKeys, KnownBy, PromotedFrom, CandidateFor;
    if rs != [] {
      var d, r := DropLast(rs), Last(rs);
      assert rs == d + [r];
      PromotedAfter(Filter(d, among), r, k);
      PromotedIsLast(d, among, k);
      RowKnown(r, k);
      PromotedItself(r, k);
      forall i: nat | LastKnownBy(rs, among, i, k)
        ensures PromotedFrom(rs[i], k, Get(PromotedKeys(Filter(rs, among)), k))
      {
        if i < |d| {
          assert LastKnownBy(d, among, i, k) && (among(rs[|rs| - 1]) ==> !KnownBy(rs[|rs| - 1], k));
        }
      }
    } else {
      NothingPromoted(k);
    }
  }

  lemma NothingPromoted(k: Id)
    ensures Get(PromotedKeys([]), k) == None
  {
  }

  lemma PromotedItself(r: Record, k: Id)
    ensures k == IdentityKeyId(r.sourceSystem, ProjectRef, r.sourceProjectReference) ==>
              PromotedFrom(r, k, Some(CandidateFor(r, ProjectRef)))
    ensures k == IdentityKeyId(r.sourceSystem, ClientRef, r.sourceClientReference) ==>
              PromotedFrom(r, k, Some(CandidateFor(r, ClientRef)))
  {
  }

  lemma RowKnown(r: Record, k: Id)
    ensures KnownBy(r, k) <==>
            !r.ambiguousAlias && (k == IdentityKeyId(r.sourceSystem, ProjectRef, r.sourceProjectReference)
                                  || k == IdentityKeyId(r.sourceSystem, ClientRef, r.sourceClientReference))
  {
  }

  /** The candidate leads to what the record calls so, and cites the record's latest version. */
  predicate PromotedFrom(r: Record, k: Id, c: Option<Candidate>) {
    && c.Some? && k.IdentityKeyId?
    && c.value.system == k.system && c.value.keyType == k.keyType && c.value.externalKey == k.key
    && c.value.resourceId == (if k.keyType == ClientRef then r.canonicalClientId else r.canonicalProjectId)
    && c.value.sourceVersionId == SourceVersionId(r.id, Latest(r).version)
  }

  function Anything(): Record -> bool { (r: Record) => true }

  lemma {:induction false} LastAmong(rs: seq<Record>, among: Record -> bool, i: nat, k: Id) returns (l: nat)
    requires i < |rs| && among(rs[i]) && KnownBy(rs[i], k)
    ensures LastKnownBy(rs, among, l, k)
    decreases |rs| - i
  {
    hide KnownBy;
    if j :| i < j < |rs| && among(rs[j]) && KnownBy(rs[j], k) {
      l := LastAmong(rs, among, j, k);
    } else {
      l := i;
    }
  }

  predicate StoredFrom(r: Record, k: Id, row: IdentityKey) {
    && k.IdentityKeyId? && row.system == k.system && row.keyType == k.keyType && row.externalKey == k.key
    && row.resourceId == (if k.keyType == ClientRef then r.canonicalClientId else r.canonicalProjectId)
    && row.sourceVersionId == SourceVersionId(r.id, Latest(r).version)
  }

  /** The key is there if some record is known by it; it then leads to what the last such record calls so, and cites
      the latest version of that record. */
  ghost predicate KeyIsLast(t: Table<IdentityKey>, rs: seq<Record>, k: Id) {
    && (k in t <==> exists i :: 0 <= i < |rs| && KnownBy(rs[i], k))
    && forall i: nat :: LastKnownBy(rs, Anything(), i, k) ==> k in t && StoredFrom(rs[i], k, t[k])
  }

  lemma PromotedDistinct(rs: seq<Record>)
    ensures DistinctKeys(PromotedKeys(rs))
  {
    FromPairsDistinct(Flat(rs, PromotedPairs));
  }

  /** An ingest stores the keys of the unambiguous references, each as its last record has it. */
  lemma IngestedKeyIsLast(c: ScaleCorpus, k: Id)
    ensures KeyIsLast(Ingest(EMPTY_DB, c).identityKeys, c.records, k)
  {
    KeyRowIsLast(c.records, k);
    hide Inserted, Flat, IdentityKeyRows, KeyIsLast;
  }

  lemma KeyRowIsLast(rs: seq<Record>, k: Id)
    ensures KeyIsLast(Inserted(map[], IdentityKeyRows(rs)), rs, k)
  {
    hide Find, PromotedKeys, KnownBy;
    FilterAll(rs, Anything());
    FindKeys(IdentityKeyRows(rs));
    PromotedDistinct(rs);
    FindEntries(PromotedKeys(rs), IdentityKeyRow, k);
    PromotedIsLast(rs, Anything(), k);
    if i :| 0 <= i < |rs| && KnownBy(rs[i], k) {
      var l := LastAmong(rs, Anything(), i, k);
    }
  }

  lemma PatchedKey(t: Table<IdentityKey>, rs: seq<Record>, k: Id)
    requires k in t
    ensures var u := ApplyIdentityKeys(t, Revisions(rs));
            && u.Keys == t.Keys
            && ((forall i :: 0 <= i < |rs| && !rs[i].deleted ==> !KnownBy(rs[i], k)) ==> u[k] == t[k])
            && forall i: nat :: LastKnownBy(rs, IsLive, i, k) ==>
                                  u[k] == t[k].(sourceVersionId := SourceVersionId(rs[i].id, Latest(rs[i]).version))
  {
    hide Find, PromotedKeys, KnownBy, Revisions, IdentityKeyPatches;
    PromotedIsLast(rs, IsLive, k);
    SamePatches(rs);
    FindEntries(IdentityKeyPatches(Revisions(rs)), IdentityKeyPatchRow, k);
  }

  lemma SamePatches(rs: seq<Record>)
    ensures IdentityKeyPatches(Revisions(rs)) == PromotedKeys(Filter(rs, IsLive))
    ensures DistinctKeys(IdentityKeyPatches(Revisions(rs)))
  {
    FromPairsDistinct(Flat(Revisions(rs), PromotedPairs));
  }

  /** A batch lets a key cite the latest version of the last revised record that is known by it, and touches nothing
      else: not its other columns, not the keys that no revision is known by, and not which keys there are. */
  lemma KeysFollowRevisions(db: Db, b: UpdateBatch, k: Id)
    requires k in db.identityKeys
    ensures Apply(db, b).identityKeys.Keys == db.identityKeys.Keys
    ensures (forall i :: 0 <= i < |b.records| && !b.records[i].deleted ==> !KnownBy(b.records[i], k)) ==>
              Apply(db, b).identityKeys[k] == db.identityKeys[k]
    ensures forall i: nat :: LastKnownBy(b.records, IsLive, i, k) ==>
                               Apply(db, b).identityKeys[k] ==
                               db.identityKeys[k].(sourceVersionId :=
                               SourceVersionId(b.records[i].id, Latest(b.records[i]).version))
  {
    PatchedKey(db.identityKeys, b.records, k);
    hide ApplyIdentityKeys, KnownBy, LastKnownBy, Revisions;
  }

  // ---- Sources and sync runs

  /** How many of the records come from the system, counted by position. */
  ghost function CountOf(rs: seq<Record>, system: SourceSystem): nat {
    |set i: nat | i < |rs| && rs[i].sourceSystem == system|
  }

  lemma CountIsPositions(rs: seq<Record>, system: SourceSystem)
    ensures CountFrom(rs, system) == CountOf(rs, system)
  {
    var p := (r: Record) => r.sourceSystem == system;
    FilterIsPlaces(rs, p);
    assert Places(rs, p) == set i: nat | i < |rs| && rs[i].sourceSystem == system;
  }

  lemma SystemRow<P>(row: SourceSystem -> Row<P>, system: SourceSystem, k: Id)
    requires row(system).keys == {k} && forall s :: k in row(s).keys ==> s == system
    ensures Find(Map(SOURCE_SYSTEMS, row), k) == Some(row(system).val)
  {
    var rows := Map(SOURCE_SYSTEMS, row);
    var i: nat := match system case Research => 0 case Meetings => 1 case Crm => 2 case Documents => 3
                                                                                   case Messages => 4;
    assert rows[i] == row(system);
    FirstRow(rows, i, k);
  }

  lemma {:induction false} FirstRow<P>(rows: seq<Row<P>>, i: nat, k: Id)
    requires i < |rows| && k in rows[i].keys && forall j :: 0 <= j < i ==> k !in rows[j].keys
    ensures Find(rows, k) == Some(rows[i].val)
  {
    if i > 0 {
      FirstRow(rows[1..], i - 1, k);
    }
  }

  /** The five sources start at the seed's cursor, each with one sync run that has seen its records. */
  ghost predicate SourcesStarted(sources: Table<Source>, runs: Table<SyncRun>, c: ScaleCorpus, s: SourceSystem) {
    && SourceId(s) in sources && sources[SourceId(s)] == Source(s, Initial(c.seed))
    && SyncRunId(c.seed, s) in runs
    && runs[SyncRunId(c.seed, s)] ==
       SyncRun(SourceId(s), None, Initial(c.seed), CountOf(c.records, s), CountOf(c.records, s))
  }

  lemma SourceRowsStarted(c: ScaleCorpus, s: SourceSystem)
    ensures SourcesStarted(Inserted(map[], SourceRows(c.seed)), Inserted(map[], SyncRunRows(c)), c, s)
  {
    hide Find, CountFrom, CountOf;
    CountIsPositions(c.records, s);
    FindKeys(SourceRows(c.seed));
    FindKeys(SyncRunRows(c));
    SystemRow(x => SourceRow(c.seed, x), s, SourceId(s));
    SystemRow(x => SyncRunRow(c, x), s, SyncRunId(c.seed, s));
  }

  lemma IngestStartsSources(c: ScaleCorpus, s: SourceSystem)
    ensures SourcesStarted(Ingest(EMPTY_DB, c).sources, Ingest(EMPTY_DB, c).syncRuns, c, s)
  {
    SourceRowsStarted(c, s);
    hide Inserted, Flat, SourceRows, SyncRunRows, SourcesStarted;
  }

  /** A batch moves every source to the cursor of its size and records, for every source, a run that has seen the
      batch's records of that source; a run that is recorded already keeps where it started. */
  ghost predicate SourcesAdvanced(before: Table<Source>, runs: Table<SyncRun>, after: Table<Source>,
                                  later: Table<SyncRun>, b: UpdateBatch, s: SourceSystem) {
    var k, cursor, n := SyncRunUpdateId(b.corpus.seed, s, |b.records|), Incremental(b.corpus.seed, |b.records|),
                        CountOf(b.records, s);
    && after.Keys == before.Keys
    && (SourceId(s) in before ==> after[SourceId(s)] == before[SourceId(s)].(cursor := cursor))
    && k in later
    && later[k] == (if k in runs then runs[k].(after := cursor, seen := n, changed := n)
                    else SyncRun(SourceId(s), Some(Initial(b.corpus.seed)), cursor, n, n))
  }

  lemma SourceTablesAdvance(sources: Table<Source>, runs: Table<SyncRun>, b: UpdateBatch, s: SourceSystem)
    ensures SourcesAdvanced(sources, runs, ApplySources(sources, b), ApplySyncRuns(runs, b), b, s)
  {
    hide Find, CountFrom, CountOf;
    CountIsPositions(b.records, s);
    FindKeys(NewSyncRunRows(b));
    SystemRow(x => CursorRow(b, x), s, SourceId(s));
    SystemRow(x => NewSyncRunRow(b, x), s, SyncRunUpdateId(b.corpus.seed, s, |b.records|));
  }

  lemma BatchAdvancesSources(db: Db, b: UpdateBatch, s: SourceSystem)
    ensures SourcesAdvanced(db.sources, db.syncRuns, Apply(db, b).sources, Apply(db, b).syncRuns, b, s)
  {
    SourceTablesAdvance(db.sources, db.syncRuns, b, s);
    hide ApplySources, ApplySyncRuns, SourcesAdvanced, Revisions;
  }

  /** Sync runs of other batches and of the ingest stay as they are. */
  lemma OtherRunsStay(db: Db, b: UpdateBatch, k: Id)
    requires k in db.syncRuns && forall s :: k != SyncRunUpdateId(b.corpus.seed, s, |b.records|)
    ensures k in Apply(db, b).syncRuns && Apply(db, b).syncRuns[k] == db.syncRuns[k]
  {
    OtherRows(db.syncRuns, b, k);
    hide ApplySyncRuns, Revisions;
  }

  lemma OtherRows(t: Table<SyncRun>, b: UpdateBatch, k: Id)
    requires k in t && forall s :: k != SyncRunUpdateId(b.corpus.seed, s, |b.records|)
    ensures k in ApplySyncRuns(t, b) && ApplySyncRuns(t, b)[k] == t[k]
  {
    hide Find;
    FindKeys(NewSyncRunRows(b));
    FindNone(NewSyncRunRows(b), k);
  }
}
