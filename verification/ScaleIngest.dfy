/** Ingesting a corpus into an empty workspace leaves the state its fresh entries describe. */
module ScaleIngest {
  import opened Prelude
  import opened Corpus
  import opened Statements
  import opened RecordRows
  import opened JsMap
  import opened ScaleTables
  import opened ScaleRows
  import opened ScaleState
  import Chunking

  function JustIngested(r: Record): Entry { Entry(r, |r.versions|, false) }

  lemma IngestedObjects(r: Record, k: Id)
    requires WellFormedRecord(r)
    ensures Find(SourceObjectRows(r), k) == SourceObjectOf(JustIngested(r), k)
    ensures Find(RelationshipRows(r), k) == RelationshipFor(JustIngested(r), k)
  {
    FindOne(SourceObjectRows(r)[0], k);
    FindOne(RelationshipRows(r)[0], k);
  }

  lemma IngestedClaims(r: Record, k: Id)
    requires WellFormedRecord(r)
    ensures Find(AssertionRows(r), k) == AssertionOf(JustIngested(r), k)
    ensures Find(ProvenanceRows(r), k) == ProvenanceOf(JustIngested(r), k)
  {
    FindOne(AssertionRows(r)[0], k);
    FindOne(ProvenanceRows(r)[0], k);
  }

  lemma IngestedVersions(r: Record, k: Id)
    requires WellFormedRecord(r)
    ensures Find(SourceVersionRows(r), k) == SourceVersionOf(JustIngested(r), k)
    ensures Find(ContentVersionRows(r), k) == ContentVersionOf(JustIngested(r), k)
  {
    VersionRowsDisjoint(r);
    if k.SourceVersionId? && 1 <= k.version <= |r.versions| && k.record == r.id {
      FindAt(SourceVersionRows(r), k.version - 1, k);
    } else {
      FindNone(SourceVersionRows(r), k);
    }
    if k.ContentVersionId? && 1 <= k.version <= |r.versions| && k.record == r.id {
      FindAt(ContentVersionRows(r), k.version - 1, k);
    } else {
      FindNone(ContentVersionRows(r), k);
    }
  }

  lemma IngestedDocuments(r: Record, k: Id)
    requires WellFormedRecord(r)
    ensures Find(DocumentRows(r), k) == DocumentOf(JustIngested(r), k)
  {
    var cs := Chunking.Chunks(Latest(r).body);
    Chunking.ChunkNumbers(Latest(r).body);
    DocumentRowsDisjoint(r);
    if k.DocumentId? && k.record == r.id && 0 <= k.chunk < |cs| {
      FindAt(DocumentRows(r), k.chunk, k);
    } else {
      FindNone(DocumentRows(r), k);
    }
  }

  lemma IngestedCandidates(r: Record, k: Id)
    requires WellFormedRecord(r)
    ensures Find(CandidateRows(r), k) == CandidateOf(JustIngested(r), k)
  {
    FindOne(CandidateRow(r, ProjectRef), k);
    assert CandidateRows(r)[1..] == [CandidateRow(r, ProjectRef)];
  }

  /** Looking a record key up in the rows of fresh entries. */
  lemma FindFresh<P>(rs: seq<Record>, g: Record -> seq<Row<P>>, k: Id)
    requires WellFormed(rs) && Owned(g)
    ensures Find(Flat(rs, g), k) == if Owner(k) in Fresh(rs) then Find(g(Fresh(rs)[Owner(k)].record), k) else None
    ensures Owner(k) in Fresh(rs) ==> WellFormedEntry(Owner(k), Fresh(rs)[Owner(k)])
  {
    FreshEntries(rs);
    FindFlat(rs, g, k);
  }

  lemma IngestedContentObject(rs: seq<Record>, k: Id)
    requires WellFormed(rs)
    ensures var t := ApplyContentObjects(Inserted(map[], Flat(rs, ContentObjectRows)), rs);
            && (k in t <==> Owner(k) in Fresh(rs) && ContentObjectOf(Fresh(rs)[Owner(k)], k).Some?)
            && (k in t ==> ContentObjectOf(Fresh(rs)[Owner(k)], k) == Some(t[k]))
  {
    hide Flat, Fresh, WellFormed;
    OwnedRows();
    FindKeys(Flat(rs, ContentObjectRows));
    FindFresh(rs, ContentObjectRows, k);
    FindFresh(rs, PointerRows, k);
    if Owner(k) in Fresh(rs) {
      var r := Fresh(rs)[Owner(k)].record;
      FindOne(ContentObjectRows(r)[0], k);
      FindOne(PointerRows(r)[0], k);
    }
  }

  lemma IngestedContentObjects(rs: seq<Record>)
    requires WellFormed(rs)
    ensures Holds(ApplyContentObjects(Inserted(map[], Flat(rs, ContentObjectRows)), rs), Fresh(rs), ContentObjectOf)
  {
    hide ApplyContentObjects, Inserted, Flat, Fresh, WellFormed, ContentObjectOf, Owner;
    forall k {
      IngestedContentObject(rs, k);
    }
  }

  lemma IngestedResource(rs: seq<Record>, k: Id)
    requires WellFormed(rs)
    ensures Find(ResourceRows(rs), k) == if Owner(k) in Fresh(rs) then ResourceOf(Fresh(rs)[Owner(k)], k)
                                         else Find(SharedRows(rs), k)
  {
    hide Flat, SharedRows, Fresh;
    OwnedRows();
    SharedRowsDisjoint(rs);
    FindKeys(SharedRows(rs));
    FindAppend(EntityRows(rs), Flat(rs, ContentRows), k);
    FindAppend(SharedRows(rs), Flat(rs, EvidenceRows), k);
    FindFresh(rs, EvidenceRows, k);
    FindFresh(rs, ContentRows, k);
    if Owner(k) in Fresh(rs) {
      var r := Fresh(rs)[Owner(k)].record;
      FreshIsUntouched(rs, Owner(k));
      FindOne(EvidenceRows(r)[0], k);
      FindOne(ContentRows(r)[0], k);
    }
  }

  lemma FreshIsUntouched(rs: seq<Record>, k: Id)
    requires k in Fresh(rs)
    ensures !Fresh(rs)[k].touched
  {
  }

  lemma IngestedResources(rs: seq<Record>)
    requires WellFormed(rs)
    ensures HoldsBeside(Inserted(map[], ResourceRows(rs)), Fresh(rs), ResourceOf, SharedRows(rs))
  {
    hide Find, ResourceRows, SharedRows, Fresh, WellFormed, ResourceOf, Owner;
    FindKeys(ResourceRows(rs));
    forall k
      ensures Find(ResourceRows(rs), k) == if Owner(k) in Fresh(rs) then ResourceOf(Fresh(rs)[Owner(k)], k)
                                           else Find(SharedRows(rs), k)
    {
      IngestedResource(rs, k);
    }
  }

  lemma IngestedKey(rs: seq<Record>, k: Id)
    requires WellFormed(rs)
    ensures Find(IdentityKeyRows(rs), k) == match Get(PromotedKeys(rs), k) case None => None case Some(c) =>
                                              Some(IdentityKeyRow((k, c)).val)
    ensures Get(PromotedKeys(rs), k).Some? ==> CitesVersion(Fresh(rs), Get(PromotedKeys(rs), k).value.sourceVersionId)
  {
    hide WellFormed, Flat, FromPairs;
    FromPairsDistinct(Flat(rs, PromotedPairs));
    FindEntries(PromotedKeys(rs), IdentityKeyRow, k);
    GetFromPairs(Flat(rs, PromotedPairs), k);
    if Get(PromotedKeys(rs), k).Some? {
      PromotedCites(rs, k, Get(PromotedKeys(rs), k).value);
    }
  }

  lemma IngestedKeys(rs: seq<Record>)
    requires WellFormed(rs)
    ensures HoldsKeys(Inserted(map[], IdentityKeyRows(rs)), Fresh(rs), rs)
  {
    hide Find, IdentityKeyRows, Fresh, WellFormed, CitesVersion, PromotedKeys;
    FindKeys(IdentityKeyRows(rs));
    forall k
      ensures Find(IdentityKeyRows(rs), k) == match Get(PromotedKeys(rs), k) case None => None case Some(c) =>
                                                Some(IdentityKeyRow((k, c)).val)
      ensures Get(PromotedKeys(rs), k).Some? ==> CitesVersion(Fresh(rs), Get(PromotedKeys(rs), k).value.sourceVersionId)
    {
      IngestedKey(rs, k);
    }
  }

  lemma FindEntries<V, P>(m: Entries<Id, V>, row: ((Id, V)) -> Row<P>, k: Id)
    requires DistinctKeys(m)
    requires forall e :: row(e).keys == {e.0}
    ensures Find(Map(m, row), k) == match Get(m, k) case None => None case Some(v) => Some(row((k, v)).val)
  {
    GetNone(m, k);
    if Get(m, k).Some? {
      var i :| 0 <= i < |m| && m[i].0 == k;
      EntriesDisjoint(m, row);
      GetAt(m, i);
      FindAt(Map(m, row), i, k);
      assert m[i] == (k, Get(m, k).value);
    } else {
      FindNone(Map(m, row), k);
    }
  }

  /** A promoted candidate cites the latest version of one of the records. */
  lemma {:induction false} PromotedPairOf(rs: seq<Record>, p: (Id, Candidate)) returns (r: Record)
    requires p in Flat(rs, PromotedPairs)
    ensures r in rs && p in PromotedPairs(r)
  {
    if p in PromotedPairs(rs[0]) {
      r := rs[0];
    } else {
      r := PromotedPairOf(rs[1..], p);
    }
  }

  lemma PromotedCites(rs: seq<Record>, k: Id, c: Candidate)
    requires WellFormed(rs) && (k, c) in Flat(rs, PromotedPairs)
    ensures CitesVersion(Fresh(rs), c.sourceVersionId)
  {
    var r := PromotedPairOf(rs, (k, c));
    var i :| 0 <= i < |rs| && rs[i] == r;
    ByIdAt(rs, i);
    assert c.sourceVersionId == SourceVersionId(r.id, Latest(r).version);
  }

  /** The state after ingesting a corpus into an empty workspace. */
  lemma IngestTracks(c: ScaleCorpus)
    requires WellFormed(c.records)
    ensures IngestFits(EMPTY_DB, c)
    ensures Tracks(Ingest(EMPTY_DB, c), Fresh(c.records), c.records)
  {
    hide Holds, HoldsBeside, HoldsKeys, Inserted, Fresh, WellFormed, Flat, SharedRows, ApplyContentObjects,
      ResourceRows, IdentityKeyRows, SourceRows, EntityNameRows, AliasRows, SyncRunRows, WellFormedEntries, EntriesOf;
    var rs := c.records;
    FreshEntries(rs);
    IngestedResources(rs);
    IngestedContentObjects(rs);
    IngestedKeys(rs);
    IngestedOwnedTables(rs);
    IngestedClaimTables(rs);
  }

  lemma IngestedOwnedTables(rs: seq<Record>)
    requires WellFormed(rs)
    ensures Holds(Inserted(map[], Flat(rs, SourceObjectRows)), Fresh(rs), SourceObjectOf)
    ensures Holds(Inserted(map[], Flat(rs, SourceVersionRows)), Fresh(rs), SourceVersionOf)
    ensures Holds(Inserted(map[], Flat(rs, ContentVersionRows)), Fresh(rs), ContentVersionOf)
    ensures Holds(Inserted(map[], Flat(rs, RelationshipRows)), Fresh(rs), RelationshipFor)
  {
    hide Flat, Find, Inserted, Fresh, Holds, Owned, Owner, WellFormed, WellFormedRecord,
      SourceObjectRows, SourceObjectOf, SourceVersionRows, SourceVersionOf, ContentVersionRows, ContentVersionOf,
      RelationshipRows, RelationshipFor;
    OwnedRows();
    OwnedClaimRows();
    OwnedManyRows();
    forall r, k | WellFormedRecord(r) && Owner(k) == r.id
      ensures Find(SourceObjectRows(r), k) == SourceObjectOf(Entry(r, |r.versions|, false), k)
      ensures Find(RelationshipRows(r), k) == RelationshipFor(Entry(r, |r.versions|, false), k)
      ensures Find(SourceVersionRows(r), k) == SourceVersionOf(Entry(r, |r.versions|, false), k)
      ensures Find(ContentVersionRows(r), k) == ContentVersionOf(Entry(r, |r.versions|, false), k)
    {
      IngestedObjects(r, k);
      IngestedVersions(r, k);
    }
    InsertedHolds(rs, SourceObjectRows, SourceObjectOf);
    InsertedHolds(rs, RelationshipRows, RelationshipFor);
    InsertedHolds(rs, SourceVersionRows, SourceVersionOf);
    InsertedHolds(rs, ContentVersionRows, ContentVersionOf);
  }

  lemma IngestedClaimTables(rs: seq<Record>)
    requires WellFormed(rs)
    ensures Holds(Inserted(map[], Flat(rs, AssertionRows)), Fresh(rs), AssertionOf)
    ensures Holds(Inserted(map[], Flat(rs, ProvenanceRows)), Fresh(rs), ProvenanceOf)
    ensures Holds(Inserted(map[], Flat(rs, DocumentRows)), Fresh(rs), DocumentOf)
    ensures Holds(Inserted(map[], Flat(rs, CandidateRows)), Fresh(rs), CandidateOf)
  {
    hide Flat, Find, Inserted, Fresh, Holds, Owned, Owner, WellFormed, WellFormedRecord,
      AssertionRows, AssertionOf, ProvenanceRows, ProvenanceOf, DocumentRows, DocumentOf, CandidateRows, CandidateOf;
    OwnedClaimRows();
    OwnedManyRows();
    forall r, k | WellFormedRecord(r) && Owner(k) == r.id
      ensures Find(AssertionRows(r), k) == AssertionOf(Entry(r, |r.versions|, false), k)
      ensures Find(ProvenanceRows(r), k) == ProvenanceOf(Entry(r, |r.versions|, false), k)
      ensures Find(DocumentRows(r), k) == DocumentOf(Entry(r, |r.versions|, false), k)
      ensures Find(CandidateRows(r), k) == CandidateOf(Entry(r, |r.versions|, false), k)
    {
      IngestedClaims(r, k);
      IngestedDocuments(r, k);
      IngestedCandidates(r, k);
    }
    InsertedHolds(rs, AssertionRows, AssertionOf);
    InsertedHolds(rs, ProvenanceRows, ProvenanceOf);
    InsertedHolds(rs, DocumentRows, DocumentOf);
    InsertedHolds(rs, CandidateRows, CandidateOf);
  }
}
