/** Every statement of the two write paths is given rows with pairwise disjoint targets. */
module ScaleRows {
  import opened Prelude
  import opened Corpus
  import opened Statements
  import opened RecordRows
  import opened JsMap
  import opened ScaleTables
  import Chunking

  lemma OwnedRows()
    ensures Owned(EvidenceRows) && Owned(ContentRows) && Owned(ContentObjectRows) && Owned(PointerRows)
    ensures Owned(SourceObjectRows)
  {
  }

  lemma OwnedClaimRows()
    ensures Owned(RelationshipRows) && Owned(AssertionRows) && Owned(ProvenanceRows) && Owned(CandidateRows)
  {
  }

  lemma OwnedManyRows()
    ensures Owned(SourceVersionRows) && Owned(ContentVersionRows) && Owned(DocumentRows)
  {
  }

  lemma OwnedBatchRows()
    ensures Owned(SourceObjectPatchRows) && Owned(ResourcePatchRows) && Owned(EvidenceKeyRows) && Owned(ContentKeyRows)
    ensures Owned(NewSourceVersionRows) && Owned(NewContentVersionRows)
  {
  }

  lemma OwnedBatchClaimRows()
    ensures Owned(CloseRows) && Owned(NewAssertionRows)
    ensures Owned(NewProvenanceRows) && Owned(NewDocumentRows) && Owned(CandidatePatchRows)
  {
  }

  lemma DocumentRowsDisjoint(r: Record)
    ensures Disjoint(DocumentRows(r)) && Disjoint(NewDocumentRows(r))
  {
    var cs := Chunking.Chunks(Latest(r).body);
    Chunking.ChunkNumbers(Latest(r).body);
    forall i, j | 0 <= i < j < |cs|
      ensures DocumentRows(r)[i].keys !! DocumentRows(r)[j].keys
      ensures NewDocumentRows(r)[i].keys !! NewDocumentRows(r)[j].keys
    {
      assert cs[i].index == i && cs[j].index == j;
    }
  }

  lemma VersionRowsDisjoint(r: Record)
    requires WellFormedRecord(r)
    ensures Disjoint(SourceVersionRows(r)) && Disjoint(ContentVersionRows(r))
  {
  }

  /** Rows built from distinct records are disjoint as soon as the rows of each record are. */
  lemma RecordRowsDisjoint<P>(rs: seq<Record>, g: Record -> seq<Row<P>>)
    requires DistinctIds(rs) && Owned(g)
    requires forall i :: 0 <= i < |rs| ==> Disjoint(g(rs[i]))
    ensures Disjoint(Flat(rs, g))
    decreases |rs|
  {
    if rs != [] {
      forall i | 0 <= i < |rs[1..]|
        ensures Disjoint(g(rs[1..][i]))
      {
        assert rs[1..][i] == rs[i + 1];
      }
      RecordRowsDisjoint(rs[1..], g);
      FindKeys(Flat(rs[1..], g));
      KeysOfRows(g(rs[0]));
      forall k | k in Keys(g(rs[0]))
        ensures k !in Keys(Flat(rs[1..], g))
      {
        FindForeign(rs[1..], g, k);
      }
      DisjointJoin(g(rs[0]), Flat(rs[1..], g));
    }
  }

  lemma EntriesDisjoint<V, P>(m: Entries<Id, V>, row: ((Id, V)) -> Row<P>)
    requires DistinctKeys(m)
    requires forall e :: row(e).keys == {e.0}
    ensures Disjoint(Map(m, row))
  {
  }

  lemma EntriesKeys<V, P>(m: Entries<Id, V>, row: ((Id, V)) -> Row<P>, k: Id)
    requires forall e :: row(e).keys == {e.0}
    ensures k in Keys(Map(m, row)) <==> exists i :: 0 <= i < |m| && m[i].0 == k
  {
    KeysOfRows(Map(m, row));
    if i :| 0 <= i < |m| && m[i].0 == k {
      assert k in Map(m, row)[i].keys;
    }
  }

  lemma ClientKeys(rs: seq<Record>)
    requires WellFormed(rs)
    ensures DistinctKeys(ClientMap(rs)) && DistinctKeys(ProjectMap(rs))
    ensures forall i :: 0 <= i < |ClientMap(rs)| ==> ClientMap(rs)[i].0.ClientId?
    ensures forall i :: 0 <= i < |ProjectMap(rs)| ==> ProjectMap(rs)[i].0.ProjectId?
  {
    var cs := Map(rs, ClientPair);
    var ps := Map(rs, ProjectPair);
    FromPairsDistinct(cs);
    FromPairsDistinct(ps);
    forall i | 0 <= i < |ClientMap(rs)|
      ensures ClientMap(rs)[i].0.ClientId?
    {
      GetAt(ClientMap(rs), i);
      GetFromPairs(cs, ClientMap(rs)[i].0);
    }
    forall i | 0 <= i < |ProjectMap(rs)|
      ensures ProjectMap(rs)[i].0.ProjectId?
    {
      GetAt(ProjectMap(rs), i);
      GetFromPairs(ps, ProjectMap(rs)[i].0);
    }
  }

  /** Client, project and hypothesis rows are disjoint, and no key of theirs belongs to a record. */
  lemma SharedRowsDisjoint(rs: seq<Record>)
    requires WellFormed(rs)
    ensures Disjoint(SharedRows(rs))
    ensures forall k :: k in Keys(SharedRows(rs)) ==> k.ClientId? || k.ProjectId? || k.HypothesisResource?
  {
    ClientKeys(rs);
    var cs, ps, hs := Map(ClientMap(rs), ClientRow), Map(ProjectMap(rs), ProjectRow),
                      Map(ProjectMap(rs), HypothesisRow);
    EntriesDisjoint(ClientMap(rs), ClientRow);
    EntriesDisjoint(ProjectMap(rs), ProjectRow);
    HypothesesDisjoint(ProjectMap(rs));
    forall k
      ensures k in Keys(cs) ==> k.ClientId?
      ensures k in Keys(ps) ==> k.ProjectId?
    {
      EntriesKeys(ClientMap(rs), ClientRow, k);
      EntriesKeys(ProjectMap(rs), ProjectRow, k);
    }
    DisjointJoin(cs, ps);
    KeysAppend(cs, ps);
    DisjointJoin(cs + ps, hs);
    KeysAppend(cs + ps, hs);
  }

  lemma HypothesesDisjoint(m: Entries<Id, (string, Id)>)
    requires DistinctKeys(m)
    ensures Disjoint(Map(m, HypothesisRow))
    ensures forall k :: k in Keys(Map(m, HypothesisRow)) ==> k.HypothesisResource?
  {
    KeysOfRows(Map(m, HypothesisRow));
  }

  lemma FlatKeys<P>(rs: seq<Record>, g: Record -> seq<Row<P>>, p: Id -> bool)
    requires forall r, i, k :: 0 <= i < |g(r)| && k in g(r)[i].keys ==> p(k)
    ensures forall k :: k in Keys(Flat(rs, g)) ==> p(k)
    decreases |rs|
  {
    if rs != [] {
      FlatKeys(rs[1..], g, p);
      KeysOfRows(g(rs[0]));
      KeysAppend(g(rs[0]), Flat(rs[1..], g));
    }
  }

  lemma ResourceRowsDisjoint(rs: seq<Record>)
    requires WellFormed(rs)
    ensures Disjoint(EntityRows(rs)) && Disjoint(ResourceRows(rs)) && Disjoint(EntityNameRows(rs))
  {
    hide Disjoint, Flat, SharedRows, Owned;
    SharedRowsDisjoint(rs);
    OwnedRows();
    ResourceRowsOfRecordsDisjoint(rs);
    RecordRowsDisjoint(rs, EvidenceRows);
    RecordRowsDisjoint(rs, ContentRows);
    FlatKeys(rs, EvidenceRows, (k: Id) => k.EvidenceResource?);
    FlatKeys(rs, ContentRows, (k: Id) => k.ContentResource?);
    var entityRows := SharedRows(rs) + Flat(rs, EvidenceRows);
    DisjointJoin(SharedRows(rs), Flat(rs, EvidenceRows));
    KeysAppend(SharedRows(rs), Flat(rs, EvidenceRows));
    DisjointJoin(entityRows, Flat(rs, ContentRows));
    EntityNamesDisjoint(entityRows);
  }

  lemma ResourceRowsOfRecordsDisjoint(rs: seq<Record>)
    ensures forall i :: 0 <= i < |rs| ==> Disjoint(EvidenceRows(rs[i])) && Disjoint(ContentRows(rs[i]))
  {
  }

  lemma EntityNamesDisjoint(rows: seq<Row<Resource>>)
    requires Disjoint(rows)
    ensures Disjoint(Map(rows, EntityNameRow))
  {
  }

  lemma AliasesDisjoint(rs: seq<Record>)
    ensures Disjoint(AliasRows(rs))
  {
    FromPairsDistinct(Map(rs, ClientPair));
  }

  lemma SystemRowsDisjoint<P>(row: SourceSystem -> Row<P>)
    requires forall s, t :: s != t ==> row(s).keys !! row(t).keys
    ensures Disjoint(Map(SOURCE_SYSTEMS, row))
  {
  }

  lemma DistinctRevisions(rs: seq<Record>)
    requires DistinctIds(rs)
    ensures DistinctIds(Revisions(rs))
  {
    if rs != [] {
      DistinctRevisions(DropLast(rs));
      FilterMembers(DropLast(rs), IsLive);
      forall r | r in Revisions(DropLast(rs))
        ensures r.id != Last(rs).id
      {
        var i :| 0 <= i < |DropLast(rs)| && DropLast(rs)[i] == r;
        assert rs[i].id != rs[|rs| - 1].id;
      }
    }
  }

  /** All parameter rows of an ingest are disjoint, so none of its statements depends on the batch size. */
  lemma IngestRowsDisjoint(c: ScaleCorpus)
    requires WellFormed(c.records)
    ensures var rs := c.records;
            && Disjoint(SourceRows(c.seed)) && Disjoint(ResourceRows(rs)) && Disjoint(EntityNameRows(rs))
            && Disjoint(AliasRows(rs))
            && Disjoint(Flat(rs, ContentObjectRows)) && Disjoint(Flat(rs, SourceObjectRows))
            && Disjoint(Flat(rs, SourceVersionRows)) && Disjoint(Flat(rs, ContentVersionRows))
            && Disjoint(Flat(rs, PointerRows)) && Disjoint(Flat(rs, RelationshipRows))
            && Disjoint(Flat(rs, AssertionRows)) && Disjoint(Flat(rs, ProvenanceRows))
            && Disjoint(Flat(rs, DocumentRows)) && Disjoint(Flat(rs, CandidateRows))
            && Disjoint(IdentityKeyRows(rs)) && Disjoint(SyncRunRows(c))
  {
    hide Disjoint, Flat, Owned, WellFormed, WellFormedRecord, AliasRows;
    var rs := c.records;
    OwnedRows();
    OwnedClaimRows();
    OwnedManyRows();
    ResourceRowsDisjoint(rs);
    AliasesDisjoint(rs);
    RowsOfRecordsDisjoint(rs);
    RecordRowsDisjoint(rs, ContentObjectRows);
    RecordRowsDisjoint(rs, SourceObjectRows);
    RecordRowsDisjoint(rs, SourceVersionRows);
    RecordRowsDisjoint(rs, ContentVersionRows);
    RecordRowsDisjoint(rs, PointerRows);
    RecordRowsDisjoint(rs, RelationshipRows);
    RecordRowsDisjoint(rs, AssertionRows);
    RecordRowsDisjoint(rs, ProvenanceRows);
    RecordRowsDisjoint(rs, DocumentRows);
    RecordRowsDisjoint(rs, CandidateRows);
    OtherIngestRowsDisjoint(c);
  }

  lemma OtherIngestRowsDisjoint(c: ScaleCorpus)
    ensures Disjoint(IdentityKeyRows(c.records)) && Disjoint(SourceRows(c.seed)) && Disjoint(SyncRunRows(c))
  {
    FromPairsDistinct(Flat(c.records, PromotedPairs));
    EntriesDisjoint(PromotedKeys(c.records), IdentityKeyRow);
    SystemRowsDisjoint(s => SourceRow(c.seed, s));
    SystemRowsDisjoint(s => SyncRunRow(c, s));
  }

  lemma RowsOfRecordsDisjoint(rs: seq<Record>)
    requires WellFormed(rs)
    ensures DistinctIds(rs)
    ensures forall i :: 0 <= i < |rs| ==> Disjoint(ContentObjectRows(rs[i])) && Disjoint(SourceObjectRows(rs[i]))
    ensures forall i :: 0 <= i < |rs| ==> Disjoint(SourceVersionRows(rs[i])) && Disjoint(ContentVersionRows(rs[i]))
    ensures forall i :: 0 <= i < |rs| ==> Disjoint(PointerRows(rs[i])) && Disjoint(RelationshipRows(rs[i]))
    ensures forall i :: 0 <= i < |rs| ==> Disjoint(AssertionRows(rs[i])) && Disjoint(ProvenanceRows(rs[i]))
    ensures forall i :: 0 <= i < |rs| ==> Disjoint(DocumentRows(rs[i])) && Disjoint(CandidateRows(rs[i]))
  {
    forall i | 0 <= i < |rs|
      ensures Disjoint(SourceVersionRows(rs[i])) && Disjoint(ContentVersionRows(rs[i])) && Disjoint(DocumentRows(rs[i]))
    {
      VersionRowsDisjoint(rs[i]);
      DocumentRowsDisjoint(rs[i]);
    }
  }

  /** All parameter rows of an update batch are disjoint. */
  lemma BatchRowsDisjoint(b: UpdateBatch)
    requires DistinctIds(b.records)
    ensures var rs, revisions := b.records, Revisions(b.records);
            && DistinctIds(revisions)
            && Disjoint(Flat(rs, SourceObjectPatchRows)) && Disjoint(Flat(rs, ResourcePatchRows))
            && Disjoint(Flat(rs, EvidenceKeyRows)) && Disjoint(Flat(revisions, NewSourceVersionRows))
            && Disjoint(Flat(revisions, ContentKeyRows)) && Disjoint(Flat(revisions, NewContentVersionRows))
            && Disjoint(Flat(revisions, PointerRows)) && Disjoint(Flat(revisions, CloseRows))
            && Disjoint(Flat(revisions, NewAssertionRows)) && Disjoint(Flat(revisions, NewProvenanceRows))
            && Disjoint(Flat(revisions, NewDocumentRows)) && Disjoint(Flat(revisions, CandidatePatchRows))
            && Disjoint(IdentityKeyPatchRows(revisions)) && Disjoint(CursorRows(b)) && Disjoint(NewSyncRunRows(b))
  {
    hide Disjoint, Flat, Owned, Revisions;
    var rs, revisions := b.records, Revisions(b.records);
    DistinctRevisions(rs);
    OwnedRows();
    OwnedBatchRows();
    OwnedBatchClaimRows();
    BatchRowsOfRecordsDisjoint();
    RecordRowsDisjoint(rs, SourceObjectPatchRows);
    RecordRowsDisjoint(rs, ResourcePatchRows);
    RecordRowsDisjoint(rs, EvidenceKeyRows);
    RecordRowsDisjoint(revisions, NewSourceVersionRows);
    RecordRowsDisjoint(revisions, ContentKeyRows);
    RecordRowsDisjoint(revisions, NewContentVersionRows);
    RecordRowsDisjoint(revisions, PointerRows);
    RecordRowsDisjoint(revisions, CloseRows);
    RecordRowsDisjoint(revisions, NewAssertionRows);
    RecordRowsDisjoint(revisions, NewProvenanceRows);
    RecordRowsDisjoint(revisions, NewDocumentRows);
    RecordRowsDisjoint(revisions, CandidatePatchRows);
    OtherBatchRowsDisjoint(b);
  }

  lemma BatchRowsOfRecordsDisjoint()
    ensures forall r :: Disjoint(SourceObjectPatchRows(r)) && Disjoint(ResourcePatchRows(r))
                        && Disjoint(EvidenceKeyRows(r))
    ensures forall r :: Disjoint(NewSourceVersionRows(r)) && Disjoint(ContentKeyRows(r))
                        && Disjoint(NewContentVersionRows(r))
    ensures forall r :: Disjoint(PointerRows(r)) && Disjoint(CloseRows(r)) && Disjoint(NewAssertionRows(r))
    ensures forall r :: Disjoint(NewProvenanceRows(r)) && Disjoint(NewDocumentRows(r))
                        && Disjoint(CandidatePatchRows(r))
  {
    forall r
      ensures Disjoint(NewDocumentRows(r))
    {
      DocumentRowsDisjoint(r);
    }
  }

  lemma OtherBatchRowsDisjoint(b: UpdateBatch)
    ensures Disjoint(IdentityKeyPatchRows(Revisions(b.records))) && Disjoint(CursorRows(b))
            && Disjoint(NewSyncRunRows(b))
  {
    FromPairsDistinct(Flat(Revisions(b.records), PromotedPairs));
    EntriesDisjoint(IdentityKeyPatches(Revisions(b.records)), IdentityKeyPatchRow);
    SystemRowsDisjoint(s => CursorRow(b, s));
    SystemRowsDisjoint(s => NewSyncRunRow(b, s));
  }
}
