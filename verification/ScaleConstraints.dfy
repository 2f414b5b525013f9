/** In a state described by entries every foreign key of the schema holds, and the unique keys hold exactly when
    no two records share an external identifier, no two versions of a record share a content hash, and no two
    clients have names that normalise alike. */
module ScaleConstraints {
  import opened Prelude
  import opened Corpus
  import opened Statements
  import opened RecordRows
  import opened JsMap
  import opened ScaleTables
  import opened ScaleRows
  import opened ScaleState
  import opened ScaleSchema
  import opened ScaleTimeline
  import opened Text
  import Chunking

  ghost predicate ContentKeysRefer(db: Db) {
    && (forall k :: k in db.entities ==> k in db.resources)
    && (forall k :: k in db.contentObjects ==>
                      && k in db.resources && db.contentObjects[k].currentVersionId.Some?
                      && db.contentObjects[k].currentVersionId.value in db.contentVersions)
    && (forall k :: k in db.entityAliases ==> db.entityAliases[k].resourceId in db.resources)
    && (forall k :: k in db.sourceObjects ==> db.sourceObjects[k].sourceId in db.sources)
    && (forall k :: k in db.sourceVersions ==> db.sourceVersions[k].sourceObjectId in db.sourceObjects)
    && (forall k :: k in db.contentVersions ==>
                      && db.contentVersions[k].contentId in db.resources
                      && db.contentVersions[k].sourceVersionId in db.sourceVersions)
  }

  ghost predicate ClaimKeysRefer(db: Db) {
    && (forall k :: k in db.relationships ==>
                      db.relationships[k].fromId in db.resources && db.relationships[k].toId in db.resources)
    && (forall k :: k in db.assertions ==>
                      && db.assertions[k].subject in db.resources && db.assertions[k].target in db.resources
                      && db.assertions[k].relationshipId in db.relationships
                      && db.assertions[k].sourceVersionId in db.sourceVersions)
    && (forall k :: k in db.provenance ==>
                      && db.provenance[k].assertionId in db.assertions
                      && db.provenance[k].sourceVersionId in db.sourceVersions)
    && (forall k :: k in db.documents ==>
                      && db.documents[k].resourceId in db.resources && db.documents[k].assertionId in db.assertions
                      && db.documents[k].contentVersionId in db.contentVersions)
    && EmbeddingsRefer(db.embeddings, db.documents)
  }

  ghost predicate IdentityKeysRefer(db: Db) {
    && (forall k :: k in db.candidates ==>
                      && db.candidates[k].resourceId in db.resources
                      && db.candidates[k].sourceVersionId in db.sourceVersions)
    && (forall k :: k in db.identityKeys ==>
                      && db.identityKeys[k].resourceId in db.resources
                      && db.identityKeys[k].sourceVersionId in db.sourceVersions)
    && (forall k :: k in db.syncRuns ==> db.syncRuns[k].sourceId in db.sources)
  }

  /** No foreign key dangles, and every content object has a current version. */
  ghost predicate ForeignKeysHold(db: Db) {
    ContentKeysRefer(db) && ClaimKeysRefer(db) && IdentityKeysRefer(db)
  }

  /** UNIQUE (content_version_id, resource_id, chunk_index) on search documents. */
  ghost predicate ChunksAreUnique(t: Table<Document>) {
    forall j, k :: j in t && k in t && SameChunk(t[j], t[k]) ==> j == k
  }

  predicate SameChunk(a: Document, b: Document) {
    a.contentVersionId == b.contentVersionId && a.resourceId == b.resourceId && a.chunkIndex == b.chunkIndex
  }

  // ---- Keys that exist for every record

  lemma SharedExists(db: Db, m: EntryMap, rs: seq<Record>, o: Id)
    requires Tracks(db, m, rs) && o in m
    ensures m[o].record.canonicalClientId in db.resources && m[o].record.canonicalProjectId in db.resources
    ensures HypothesisResource(m[o].record.canonicalProjectId) in db.resources
  {
    hide Tracks, Find, SharedRows, ById;
    TrackedResources(db, m, rs);
    ByIdKeys(rs);
    var i :| 0 <= i < |rs| && rs[i].id == o;
    ByIdAt(rs, i);
    SharedRowsHave(rs, i);
    FindKeys(SharedRows(rs));
    RecordIdsOnly(m, rs);
  }

  lemma TrackedResources(db: Db, m: EntryMap, rs: seq<Record>)
    requires Tracks(db, m, rs)
    ensures EntriesOf(m, rs) && HoldsBeside(db.resources, m, ResourceOf, SharedRows(rs))
  {
  }

  lemma RecordIdsOnly(m: EntryMap, rs: seq<Record>)
    requires EntriesOf(m, rs)
    ensures forall k :: k in m ==> k.RecordId?
  {
    ByIdKeys(rs);
  }

  lemma SharedRowsHave(rs: seq<Record>, i: nat)
    requires i < |rs|
    ensures rs[i].canonicalClientId in Keys(SharedRows(rs)) && rs[i].canonicalProjectId in Keys(SharedRows(rs))
    ensures HypothesisResource(rs[i].canonicalProjectId) in Keys(SharedRows(rs))
  {
    hide FromPairs, Map, ClientMap, ProjectMap;
    FindKeys(Map(ClientMap(rs), ClientRow));
    ClientRowExists(rs, i);
    ProjectRowExists(rs, i);
    var cs, ps, hs := Map(ClientMap(rs), ClientRow), Map(ProjectMap(rs), ProjectRow),
                      Map(ProjectMap(rs), HypothesisRow);
    KeysAppend(cs + ps, hs);
    KeysAppend(cs, ps);
  }

  lemma ClientRowExists(rs: seq<Record>, i: nat)
    requires i < |rs|
    ensures rs[i].canonicalClientId in Keys(Map(ClientMap(rs), ClientRow))
  {
    hide FromPairs;
    var cs := Map(rs, ClientPair);
    GetFromPairs(cs, cs[i].0);
    GetNone(ClientMap(rs), cs[i].0);
    EntriesKeys(ClientMap(rs), ClientRow, cs[i].0);
  }

  lemma ProjectRowExists(rs: seq<Record>, i: nat)
    requires i < |rs|
    ensures rs[i].canonicalProjectId in Keys(Map(ProjectMap(rs), ProjectRow))
    ensures HypothesisResource(rs[i].canonicalProjectId) in Keys(Map(ProjectMap(rs), HypothesisRow))
  {
    hide FromPairs;
    var ps := Map(rs, ProjectPair);
    GetFromPairs(ps, ps[i].0);
    GetNone(ProjectMap(rs), ps[i].0);
    EntriesKeys(ProjectMap(rs), ProjectRow, ps[i].0);
    var b :| 0 <= b < |ProjectMap(rs)| && ProjectMap(rs)[b].0 == ps[i].0;
    KeysOfRows(Map(ProjectMap(rs), HypothesisRow));
    assert HypothesisResource(ps[i].0) in Map(ProjectMap(rs), HypothesisRow)[b].keys;
  }

  lemma OwnRows(o: Id, e: Entry, v: int)
    requires WellFormedEntry(o, e)
    ensures Owner(EvidenceResource(o)) == o && ResourceOf(e, EvidenceResource(o)).Some?
    ensures Owner(ContentResource(o)) == o && ResourceOf(e, ContentResource(o)).Some?
    ensures Owner(SourceObjectId(o)) == o && SourceObjectOf(e, SourceObjectId(o)).Some?
    ensures Owner(SourceVersionId(o, v)) == o && Owner(ContentVersionId(o, v)) == o
    ensures 1 <= v <= |e.record.versions| ==>
              SourceVersionOf(e, SourceVersionId(o, v)).Some? && ContentVersionOf(e, ContentVersionId(o, v)).Some?
  {
  }

  lemma RecordKeysExist(db: Db, m: EntryMap, rs: seq<Record>, o: Id)
    requires Tracks(db, m, rs) && o in m
    ensures EvidenceResource(o) in db.resources && ContentResource(o) in db.resources
            && SourceObjectId(o) in db.sourceObjects
    ensures forall v :: 1 <= v <= |m[o].record.versions| ==>
                          SourceVersionId(o, v) in db.sourceVersions && ContentVersionId(o, v) in db.contentVersions
  {
    hide HoldsKeys, EntriesOf, SharedRows, WellFormedEntry, Owner, ResourceOf, SourceObjectOf, SourceVersionOf,
      ContentVersionOf, ContentObjectOf,
      DocumentOf, AssertionOf, ProvenanceOf, CandidateOf, RelationshipFor;
    OwnRows(o, m[o], 0);
    forall v | 1 <= v <= |m[o].record.versions|
      ensures SourceVersionId(o, v) in db.sourceVersions && ContentVersionId(o, v) in db.contentVersions
    {
      OwnRows(o, m[o], v);
    }
  }

  // ---- The references of each table

  lemma RowRefers(o: Id, e: Entry, k: Id)
    requires WellFormedEntry(o, e) && Owner(k) == o
    ensures SourceObjectOf(e, k).Some? ==> SourceObjectOf(e, k).value.sourceId.SourceId?
    ensures SourceVersionOf(e, k).Some? ==> SourceVersionOf(e, k).value.sourceObjectId == SourceObjectId(o)
    ensures ContentObjectOf(e, k).Some? ==>
              k == ContentResource(o) && ContentObjectOf(e, k).value.currentVersionId ==
                                         Some(ContentVersionId(o, |e.record.versions|))
    ensures ContentVersionOf(e, k).Some? ==>
              && 1 <= k.version <= |e.record.versions| && ContentVersionOf(e, k).value.contentId == ContentResource(o)
              && ContentVersionOf(e, k).value.sourceVersionId == SourceVersionId(o, k.version)
    ensures RelationshipFor(e, k).Some? ==>
              && RelationshipFor(e, k).value.fromId == EvidenceResource(o)
              && RelationshipFor(e, k).value.toId == HypothesisResource(e.record.canonicalProjectId)
              && k == RelationshipId(RelationshipFor(e, k).value.fromId, RelationshipFor(e, k).value.stance,
                                     RelationshipFor(e, k).value.toId)
    ensures CandidateOf(e, k).Some? ==>
              && CandidateOf(e, k).value.resourceId in {e.record.canonicalClientId, e.record.canonicalProjectId}
              && CandidateOf(e, k).value.sourceVersionId == SourceVersionId(o, |e.record.versions|)
              && CandidateMatches(k, CandidateOf(e, k).value)
  {
  }

  lemma ClaimRefers(o: Id, e: Entry, k: Id)
    requires WellFormedEntry(o, e) && Owner(k) == o
    ensures AssertionOf(e, k).Some? ==>
              var a := AssertionOf(e, k).value;
              && a.subject == EvidenceResource(o) && a.target == HypothesisResource(e.record.canonicalProjectId)
              && a.sourceVersionId == SourceVersionId(o, VersionOf(e, k)) && 1 <= VersionOf(e, k) <= |e.record.versions|
    ensures ProvenanceOf(e, k).Some? ==>
              var p := ProvenanceOf(e, k).value;
              && Owner(p.assertionId) == o && AssertionOf(e, p.assertionId).Some?
              && p.sourceVersionId == SourceVersionId(o, VersionOf(e, k)) && 1 <= VersionOf(e, k) <= |e.record.versions|
  {
  }

  lemma DocumentRefers(o: Id, e: Entry, k: Id)
    requires WellFormedEntry(o, e) && Owner(k) == o && DocumentOf(e, k).Some?
    ensures var d, v := DocumentOf(e, k).value, VersionOf(e, k);
            && d.resourceId == EvidenceResource(o) && d.contentVersionId == ContentVersionId(o, v)
            && e.base <= v <= |e.record.versions|
            && Owner(d.assertionId) == o && AssertionOf(e, d.assertionId).Some?
            && d.chunkIndex == k.chunk
            && k == (if v == e.base then DocumentId(o, k.chunk) else DocumentUpdateId(o, v, k.chunk))
            && (d.active <==> v == |e.record.versions| && !e.record.deleted)
  {
    hide Chunking.Chunks;
    Chunking.ChunkNumbers(VersionAt(e.record, VersionOf(e, k)).body);
  }

  lemma ObjectsRefer(db: Db, m: EntryMap, rs: seq<Record>, k: Id)
    requires Tracks(db, m, rs)
    ensures k in db.sourceObjects ==> db.sourceObjects[k].sourceId.SourceId?
    ensures k in db.contentObjects ==>
              && k in db.resources && db.contentObjects[k].currentVersionId.Some?
              && db.contentObjects[k].currentVersionId.value in db.contentVersions
    ensures k in db.sourceVersions ==> db.sourceVersions[k].sourceObjectId in db.sourceObjects
    ensures k in db.contentVersions ==>
              db.contentVersions[k].contentId in db.resources
              && db.contentVersions[k].sourceVersionId in db.sourceVersions
  {
    hide HoldsBeside, HoldsKeys, EntriesOf, WellFormedEntry, SourceVersionOf, ContentObjectOf, ContentVersionOf,
      RelationshipFor, CandidateOf,
      SourceObjectOf, AssertionOf, ProvenanceOf, DocumentOf, Owner;
    var o := Owner(k);
    if o in m {
      assert WellFormedEntry(o, m[o]);
      RowRefers(o, m[o], k);
      RecordKeysExist(db, m, rs, o);
      SharedExists(db, m, rs, o);
      EntryHasVersion(o, m[o]);
    }
  }

  lemma CandidatesRefer(db: Db, m: EntryMap, rs: seq<Record>, k: Id)
    requires Tracks(db, m, rs) && k in db.candidates
    ensures db.candidates[k].resourceId in db.resources && db.candidates[k].sourceVersionId in db.sourceVersions
    ensures CandidateMatches(k, db.candidates[k])
  {
    hide HoldsBeside, HoldsKeys, EntriesOf, WellFormedEntry, SourceVersionOf, ContentObjectOf, ContentVersionOf,
      RelationshipFor, CandidateOf, CandidateMatches,
      SourceObjectOf, AssertionOf, ProvenanceOf, DocumentOf, Owner;
    var o := Owner(k);
    RowRefers(o, m[o], k);
    RecordKeysExist(db, m, rs, o);
    SharedExists(db, m, rs, o);
    EntryHasVersion(o, m[o]);
  }

  lemma RelationshipRefers(db: Db, m: EntryMap, rs: seq<Record>, k: Id)
    requires Tracks(db, m, rs) && k in db.relationships
    ensures db.relationships[k].fromId in db.resources && db.relationships[k].toId in db.resources
    ensures var r := db.relationships[k]; k == RelationshipId(r.fromId, r.stance, r.toId)
  {
    hide HoldsBeside, HoldsKeys, EntriesOf, WellFormedEntry, SourceVersionOf, ContentObjectOf, ContentVersionOf,
      RelationshipFor, CandidateOf,
      SourceObjectOf, AssertionOf, ProvenanceOf, DocumentOf, Owner;
    var o := Owner(k);
    RowRefers(o, m[o], k);
    RecordKeysExist(db, m, rs, o);
    SharedExists(db, m, rs, o);
  }

  lemma EntryHasVersion(o: Id, e: Entry)
    requires WellFormedEntry(o, e)
    ensures 1 <= e.base <= |e.record.versions|
  {
  }

  lemma ClaimsRefer(db: Db, m: EntryMap, rs: seq<Record>, k: Id)
    requires Tracks(db, m, rs)
    ensures k in db.assertions ==>
              && db.assertions[k].subject in db.resources && db.assertions[k].target in db.resources
              && db.assertions[k].relationshipId in db.relationships
              && db.assertions[k].sourceVersionId in db.sourceVersions
    ensures k in db.provenance ==>
              db.provenance[k].assertionId in db.assertions && db.provenance[k].sourceVersionId in db.sourceVersions
    ensures k in db.documents ==>
              && db.documents[k].resourceId in db.resources && db.documents[k].assertionId in db.assertions
              && db.documents[k].contentVersionId in db.contentVersions
  {
    hide HoldsBeside, HoldsKeys, EntriesOf, WellFormedEntry, SourceVersionOf, ContentObjectOf, ContentVersionOf,
      RelationshipFor, CandidateOf,
      SourceObjectOf, AssertionOf, ProvenanceOf, DocumentOf, Owner, VersionOf;
    var o := Owner(k);
    if o in m {
      assert WellFormedEntry(o, m[o]);
      ClaimRefers(o, m[o], k);
      EntryHasVersion(o, m[o]);
      if k in db.documents {
        DocumentRefers(o, m[o], k);
      }
      if k in db.assertions {
        ClaimRelated(db, m, k);
      }
      RecordKeysExist(db, m, rs, o);
      SharedExists(db, m, rs, o);
    }
  }

  lemma KeyRefers(db: Db, m: EntryMap, rs: seq<Record>, k: Id)
    requires Tracks(db, m, rs) && k in db.identityKeys
    ensures db.identityKeys[k].resourceId in db.resources && db.identityKeys[k].sourceVersionId in db.sourceVersions
  {
    hide Holds, HoldsBeside, EntriesOf, WellFormedEntries, Flat, FromPairs;
    GetFromPairs(Flat(rs, PromotedPairs), k);
    var c := Get(PromotedKeys(rs), k).value;
    PromotedResource(db, m, rs, (k, c));
    RecordKeysExist(db, m, rs, db.identityKeys[k].sourceVersionId.record);
  }

  lemma PromotedResource(db: Db, m: EntryMap, rs: seq<Record>, p: (Id, Candidate))
    requires Tracks(db, m, rs) && p in Flat(rs, PromotedPairs)
    ensures p.1.resourceId in db.resources
  {
    hide Holds, HoldsBeside, HoldsKeys, WellFormedEntries, Flat;
    var i := FlatFrom(rs, PromotedPairs, p);
    ByIdAt(rs, i);
    SharedExists(db, m, rs, rs[i].id);
  }

  lemma ChunkIsUnique(t: Table<Document>, m: EntryMap, j: Id, k: Id)
    requires WellFormedEntries(m) && Holds(t, m, DocumentOf) && j in t && k in t
    requires SameChunk(t[j], t[k])
    ensures j == k
  {
    hide DocumentOf, WellFormedEntry, Owner, VersionOf, AssertionOf;
    DocumentRefers(Owner(j), m[Owner(j)], j);
    DocumentRefers(Owner(k), m[Owner(k)], k);
  }

  /** The rows that entries do not describe: the five sources are there, sync runs belong to them, entity names belong
      to resources, and embeddings to documents. */
  ghost predicate Anchored(db: Db) {
    && (forall s :: SourceId(s) in db.sources)
    && (forall k :: k in db.syncRuns ==> db.syncRuns[k].sourceId in db.sources)
    && (forall k :: k in db.entities ==> k in db.resources)
    && EmbeddingsRefer(db.embeddings, db.documents)
  }

  // ---- Client aliases

  /** The alias of the `i`-th client is in the table, and nothing else is. */
  lemma AliasAt(rs: seq<Record>, i: nat)
    requires i < |ClientMap(rs)|
    ensures var t, e := Inserted(map[], AliasRows(rs)), ClientMap(rs)[i];
            AliasId(e.0) in t && t[AliasId(e.0)] == EntityAlias(e.0, e.1, Normalize(e.1, ' '))
  {
    hide ClientMap, Normalize;
    AliasesDisjoint(rs);
    FindKeys(AliasRows(rs));
    FindAt(AliasRows(rs), i, AliasId(ClientMap(rs)[i].0));
  }

  lemma AliasFrom(rs: seq<Record>, k: Id) returns (i: nat)
    requires k in Inserted(map[], AliasRows(rs))
    ensures i < |ClientMap(rs)| && k == AliasId(ClientMap(rs)[i].0)
  {
    hide ClientMap, Normalize;
    KeysOfRows(AliasRows(rs));
    i :| 0 <= i < |AliasRows(rs)| && k in AliasRows(rs)[i].keys;
  }

  lemma AliasRefers(db: Db, m: EntryMap, rs: seq<Record>, k: Id)
    requires Tracks(db, m, rs) && k in db.entityAliases
    ensures db.entityAliases[k].resourceId in db.resources
  {
    hide Holds, HoldsKeys, WellFormedEntries, SharedRows, Inserted, ClientMap, AliasRows;
    var i := AliasFrom(rs, k);
    AliasAt(rs, i);
    ClientIsShared(rs, i);
    FindKeys(SharedRows(rs));
    RecordIdsOnly(m, rs);
    ClientKeys(rs);
  }

  lemma ClientIsShared(rs: seq<Record>, i: nat)
    requires i < |ClientMap(rs)|
    ensures ClientMap(rs)[i].0 in Keys(SharedRows(rs))
  {
    hide FromPairs, Map, ClientMap, ProjectMap;
    EntriesKeys(ClientMap(rs), ClientRow, ClientMap(rs)[i].0);
    var cs, ps, hs := Map(ClientMap(rs), ClientRow), Map(ProjectMap(rs), ProjectRow),
                      Map(ProjectMap(rs), HypothesisRow);
    KeysAppend(cs + ps, hs);
    KeysAppend(cs, ps);
  }

  /** No two clients have names that normalise alike; a client has the name its last record gives it. */
  predicate AliasesDiffer(rs: seq<Record>) {
    forall i, j | 0 <= i < j < |ClientMap(rs)| ::
      Normalize(ClientMap(rs)[i].1, ' ') != Normalize(ClientMap(rs)[j].1, ' ')
  }

  /** UNIQUE (workspace_id, normalized_alias, alias_type, source_system) holds exactly then. */
  lemma AliasesUniqueExactly(t: Table<EntityAlias>, rs: seq<Record>, resources: set<Id>)
    requires HoldsAliases(t, rs)
    ensures UniqueKeyed(t, AliasRule(resources)) <==> AliasesDiffer(rs)
  {
    hide Inserted, ClientMap, AliasRows, Normalize;
    var m := ClientMap(rs);
    if UniqueKeyed(t, AliasRule(resources)) {
      forall i, j | 0 <= i < j < |m|
        ensures Normalize(m[i].1, ' ') != Normalize(m[j].1, ' ')
      {
        AliasAt(rs, i);
        AliasAt(rs, j);
        ClientsDiffer(rs, i, j);
      }
    }
    if AliasesDiffer(rs) {
      forall j, k | j in t && k in t && t[j].normalized == t[k].normalized
        ensures j == k
      {
        var a := AliasFrom(rs, j);
        var b := AliasFrom(rs, k);
        AliasAt(rs, a);
        AliasAt(rs, b);
      }
    }
  }

  lemma ClientsDiffer(rs: seq<Record>, i: nat, j: nat)
    requires i < j < |ClientMap(rs)|
    ensures ClientMap(rs)[i].0 != ClientMap(rs)[j].0
  {
    FromPairsDistinct(Map(rs, ClientPair));
  }

  lemma TrackedAliases(db: Db, m: EntryMap, rs: seq<Record>)
    requires Tracks(db, m, rs)
    ensures HoldsAliases(db.entityAliases, rs)
  {
  }

  lemma ContentKeysAlwaysRefer(db: Db, m: EntryMap, rs: seq<Record>)
    requires Tracks(db, m, rs) && Anchored(db)
    ensures ContentKeysRefer(db)
  {
    hide Tracks, EmbeddingsRefer;
    forall k {
      ObjectsRefer(db, m, rs, k);
    }
    forall k | k in db.entityAliases
      ensures db.entityAliases[k].resourceId in db.resources
    {
      AliasRefers(db, m, rs, k);
    }
  }

  lemma ClaimKeysAlwaysRefer(db: Db, m: EntryMap, rs: seq<Record>)
    requires Tracks(db, m, rs) && Anchored(db)
    ensures ClaimKeysRefer(db)
  {
    hide Tracks, EmbeddingsRefer;
    forall k | k in db.relationships
      ensures db.relationships[k].fromId in db.resources && db.relationships[k].toId in db.resources
    {
      RelationshipRefers(db, m, rs, k);
    }
    forall k {
      ClaimsRefer(db, m, rs, k);
    }
  }

  lemma IdentityKeysAlwaysRefer(db: Db, m: EntryMap, rs: seq<Record>)
    requires Tracks(db, m, rs) && Anchored(db)
    ensures IdentityKeysRefer(db)
  {
    hide Tracks, EmbeddingsRefer;
    forall k | k in db.candidates
      ensures db.candidates[k].resourceId in db.resources && db.candidates[k].sourceVersionId in db.sourceVersions
    {
      CandidatesRefer(db, m, rs, k);
    }
    forall k | k in db.identityKeys
      ensures db.identityKeys[k].resourceId in db.resources && db.identityKeys[k].sourceVersionId in db.sourceVersions
    {
      KeyRefers(db, m, rs, k);
    }
  }

  lemma ForeignKeysAlwaysHold(db: Db, m: EntryMap, rs: seq<Record>)
    requires Tracks(db, m, rs) && Anchored(db)
    ensures ForeignKeysHold(db)
  {
    hide Tracks, Anchored, ContentKeysRefer, ClaimKeysRefer, IdentityKeysRefer;
    ContentKeysAlwaysRefer(db, m, rs);
    ClaimKeysAlwaysRefer(db, m, rs);
    IdentityKeysAlwaysRefer(db, m, rs);
  }

  /** No two documents, active or not, are the same chunk of the same content version. */
  lemma ChunksAlwaysUnique(db: Db, m: EntryMap, rs: seq<Record>)
    requires Tracks(db, m, rs)
    ensures ChunksAreUnique(db.documents)
  {
    TrackedDocuments(db, m, rs);
    hide Tracks, Holds, WellFormedEntries;
    forall j, k | j in db.documents && k in db.documents && SameChunk(db.documents[j], db.documents[k])
      ensures j == k
    {
      ChunkIsUnique(db.documents, m, j, k);
    }
  }

  /** UNIQUE (source_object_id, content_hash) on source versions. */
  ghost predicate VersionsAreUnique(t: Table<SourceVersion>) {
    forall j, k :: j in t && k in t && t[j].sourceObjectId == t[k].sourceObjectId && t[j].hash == t[k].hash ==> j == k
  }

  /** No two versions of a record have the same content hash. */
  ghost predicate DistinctHashes(r: Record) {
    forall i, j :: 0 <= i < j < |r.versions| ==> r.versions[i].contentHashKey != r.versions[j].contentHashKey
  }

  lemma VersionsAlwaysUnique(db: Db, m: EntryMap, rs: seq<Record>)
    requires Tracks(db, m, rs)
    requires forall o :: o in m ==> DistinctHashes(m[o].record)
    ensures VersionsAreUnique(db.sourceVersions)
  {
    hide HoldsBeside, HoldsKeys, EntriesOf, SharedRows, DocumentOf, AssertionOf, ProvenanceOf, CandidateOf,
      RelationshipFor, Owner;
    var t := db.sourceVersions;
    forall j, k | j in t && k in t && t[j].sourceObjectId == t[k].sourceObjectId && t[j].hash == t[k].hash
      ensures j == k
    {
      VersionIsUnique(Owner(j), Owner(k), m[Owner(j)], m[Owner(k)], j, k);
    }
  }

  lemma VersionIsUnique(o: Id, p: Id, e: Entry, f: Entry, j: Id, k: Id)
    requires WellFormedEntry(o, e) && WellFormedEntry(p, f) && (o == p ==> e == f) && DistinctHashes(e.record)
    requires SourceVersionOf(e, j).Some? && SourceVersionOf(f, k).Some?
    requires SourceVersionOf(e, j).value.sourceObjectId == SourceVersionOf(f, k).value.sourceObjectId
    requires SourceVersionOf(e, j).value.hash == SourceVersionOf(f, k).value.hash
    ensures j == k
  {
    assert o == p;
    var a, b := j.version - 1, k.version - 1;
    assert e.record.versions[a].contentHashKey == e.record.versions[b].contentHashKey;
  }

  // ---- The schema holds exactly for records that can be told apart

  /** What the schema asks of the records: distinct external identifiers, distinct hashes in each record, and clients
      that can be told apart by name. */
  ghost predicate Storable(rs: seq<Record>) {
    && (forall i :: 0 <= i < |rs| ==> DistinctHashes(rs[i]))
    && (forall i, j :: 0 <= i < j < |rs| ==> !SameExternal(rs[i], rs[j]))
    && AliasesDiffer(rs)
  }

  predicate SameExternal(r: Record, s: Record) {
    r.sourceSystem == s.sourceSystem && r.external == s.external
  }

  lemma EntryRecord(m: EntryMap, rs: seq<Record>, o: Id) returns (i: nat)
    requires EntriesOf(m, rs) && o in m
    ensures i < |rs| && rs[i] == m[o].record && rs[i].id == o
  {
    ByIdKeys(rs);
    i :| 0 <= i < |rs| && rs[i].id == o;
    ByIdAt(rs, i);
  }

  lemma ObjectRow(db: Db, m: EntryMap, rs: seq<Record>, k: Id) returns (i: nat)
    requires Tracks(db, m, rs) && k in db.sourceObjects
    ensures i < |rs| && k == SourceObjectId(rs[i].id)
    ensures db.sourceObjects[k].sourceId == SourceId(rs[i].sourceSystem)
            && db.sourceObjects[k].external == rs[i].external
  {
    hide HoldsBeside, HoldsKeys, EntriesOf, SharedRows, DocumentOf, AssertionOf, ProvenanceOf, CandidateOf,
      RelationshipFor, SourceVersionOf, ContentVersionOf, ContentObjectOf;
    i := EntryRecord(m, rs, Owner(k));
  }

  lemma ObjectsAreUnique(db: Db, m: EntryMap, rs: seq<Record>)
    requires Tracks(db, m, rs) && Storable(rs)
    ensures UniqueKeyed(db.sourceObjects, SourceObjectRule(db.sources.Keys))
  {
    hide Tracks, DistinctHashes, AliasesDiffer;
    var t := db.sourceObjects;
    forall j, k | j in t && k in t && t[j].sourceId == t[k].sourceId && t[j].external == t[k].external
      ensures j == k
    {
      var a := ObjectRow(db, m, rs, j);
      var b := ObjectRow(db, m, rs, k);
      assert SameExternal(rs[a], rs[b]) && SameExternal(rs[b], rs[a]);
    }
  }

  lemma RelationshipsAreUnique(db: Db, m: EntryMap, rs: seq<Record>)
    requires Tracks(db, m, rs)
    ensures UniqueKeyed(db.relationships, RelationshipRule(db.resources.Keys))
  {
    hide Tracks;
    var t := db.relationships;
    forall k | k in t
      ensures k == RelationshipId(t[k].fromId, t[k].stance, t[k].toId)
    {
      RelationshipRefers(db, m, rs, k);
    }
  }

  lemma CandidatesAreUnique(db: Db, m: EntryMap, rs: seq<Record>)
    requires Tracks(db, m, rs)
    ensures UniqueKeyed(db.candidates, CandidateRule(db.resources.Keys, db.sourceVersions.Keys))
  {
    hide Tracks;
    var t := db.candidates;
    forall k | k in t
      ensures CandidateMatches(k, t[k])
    {
      CandidatesRefer(db, m, rs, k);
    }
  }

  lemma KeyNames(db: Db, m: EntryMap, rs: seq<Record>, k: Id)
    requires Tracks(db, m, rs) && k in db.identityKeys
    ensures var i := db.identityKeys[k]; k == IdentityKeyId(i.system, i.keyType, i.externalKey)
  {
    hide Holds, HoldsBeside, EntriesOf, WellFormedEntries, Flat, FromPairs;
    GetFromPairs(Flat(rs, PromotedPairs), k);
    var c := Get(PromotedKeys(rs), k).value;
    var i := FlatFrom(rs, PromotedPairs, (k, c));
  }

  lemma KeysAreUnique(db: Db, m: EntryMap, rs: seq<Record>)
    requires Tracks(db, m, rs)
    ensures UniqueKeyed(db.identityKeys, IdentityKeyRule(db.resources.Keys, db.sourceVersions.Keys))
  {
    hide Tracks;
    var t := db.identityKeys;
    forall k | k in t
      ensures k == IdentityKeyId(t[k].system, t[k].keyType, t[k].externalKey)
    {
      KeyNames(db, m, rs, k);
    }
  }

  lemma EntryHashes(m: EntryMap, rs: seq<Record>)
    requires EntriesOf(m, rs) && Storable(rs)
    ensures forall o :: o in m ==> DistinctHashes(m[o].record)
  {
    hide EntriesOf, DistinctHashes, AliasesDiffer;
    forall o | o in m
      ensures DistinctHashes(m[o].record)
    {
      var i := EntryRecord(m, rs, o);
    }
  }

  lemma TrackedEntries(db: Db, m: EntryMap, rs: seq<Record>)
    requires Tracks(db, m, rs)
    ensures WellFormedEntries(m) && EntriesOf(m, rs)
  {
  }

  lemma ContentRulesRefer(db: Db)
    requires ContentKeysRefer(db)
    ensures Refers(db.entities, EntityRule(db.resources.Keys))
    ensures Refers(db.contentObjects, ContentObjectRule(db.resources.Keys, db.contentVersions.Keys))
    ensures Refers(db.entityAliases, AliasRule(db.resources.Keys))
    ensures Refers(db.sourceObjects, SourceObjectRule(db.sources.Keys))
    ensures Refers(db.sourceVersions, SourceVersionRule(db.sourceObjects.Keys))
    ensures Refers(db.contentVersions, ContentVersionRule(db.resources.Keys, db.sourceVersions.Keys))
  {
  }

  lemma ClaimRulesRefer(db: Db)
    requires ClaimKeysRefer(db)
    ensures Refers(db.relationships, RelationshipRule(db.resources.Keys))
    ensures Refers(db.assertions, AssertionRule(db.resources.Keys, db.relationships.Keys, db.sourceVersions.Keys))
    ensures Refers(db.provenance, ProvenanceRule(db.assertions.Keys, db.sourceVersions.Keys))
    ensures Refers(db.documents, DocumentRule(db.resources.Keys, db.assertions.Keys, db.contentVersions.Keys))
  {
  }

  lemma IdentityRulesRefer(db: Db)
    requires IdentityKeysRefer(db)
    ensures Refers(db.candidates, CandidateRule(db.resources.Keys, db.sourceVersions.Keys))
    ensures Refers(db.identityKeys, IdentityKeyRule(db.resources.Keys, db.sourceVersions.Keys))
    ensures Refers(db.syncRuns, SyncRunRule(db.sources.Keys))
  {
  }

  lemma PrimaryKeysAreUnique(db: Db)
    ensures UniqueKeyed(db.entities, EntityRule(db.resources.Keys))
    ensures UniqueKeyed(db.contentObjects, ContentObjectRule(db.resources.Keys, db.contentVersions.Keys))
    ensures UniqueKeyed(db.contentVersions, ContentVersionRule(db.resources.Keys, db.sourceVersions.Keys))
    ensures UniqueKeyed(db.assertions, AssertionRule(db.resources.Keys, db.relationships.Keys, db.sourceVersions.Keys))
    ensures UniqueKeyed(db.provenance, ProvenanceRule(db.assertions.Keys, db.sourceVersions.Keys))
    ensures UniqueKeyed(db.syncRuns, SyncRunRule(db.sources.Keys))
  {
  }

  lemma VersionKeysAreUnique(t: Table<SourceVersion>, sourceObjects: set<Id>)
    requires VersionsAreUnique(t)
    ensures UniqueKeyed(t, SourceVersionRule(sourceObjects))
  {
  }

  lemma ChunkKeysAreUnique(t: Table<Document>, rule: Rule<Document>, resources: set<Id>, assertions: set<Id>,
                           versions: set<Id>)
    requires ChunksAreUnique(t) && rule == DocumentRule(resources, assertions, versions)
    ensures UniqueKeyed(t, rule)
  {
  }

  lemma StorableAliases(rs: seq<Record>)
    requires Storable(rs)
    ensures AliasesDiffer(rs)
  {
  }

  lemma ContentsObeySchema(db: Db, m: EntryMap, rs: seq<Record>)
    requires Tracks(db, m, rs) && Anchored(db) && Storable(rs)
    ensures ContentsHold(db)
  {
    hide Tracks, Anchored, Storable, EntriesOf, WellFormedEntries, DistinctHashes, Refers, UniqueKeyed, EntityRule,
      ContentObjectRule, AliasRule, SourceObjectRule, SourceVersionRule, ContentVersionRule, ContentKeysRefer,
      VersionsAreUnique, HoldsAliases;
    ContentKeysAlwaysRefer(db, m, rs);
    ContentRulesRefer(db);
    PrimaryKeysAreUnique(db);
    ObjectsAreUnique(db, m, rs);
    TrackedAliases(db, m, rs);
    StorableAliases(rs);
    AliasesUniqueExactly(db.entityAliases, rs, db.resources.Keys);
    TrackedEntries(db, m, rs);
    EntryHashes(m, rs);
    VersionsAlwaysUnique(db, m, rs);
    VersionKeysAreUnique(db.sourceVersions, db.sourceObjects.Keys);
  }

  lemma ClaimsObeySchema(db: Db, m: EntryMap, rs: seq<Record>)
    requires Tracks(db, m, rs) && Anchored(db)
    ensures ClaimsHold(db)
  {
    hide Tracks, Refers, UniqueKeyed, RelationshipRule, AssertionRule, ProvenanceRule, DocumentRule, ClaimKeysRefer,
      ChunksAreUnique, EmbeddingsRefer;
    ClaimKeysAlwaysRefer(db, m, rs);
    ClaimRulesRefer(db);
    PrimaryKeysAreUnique(db);
    RelationshipsAreUnique(db, m, rs);
    ChunksAlwaysUnique(db, m, rs);
    var r, a, v := db.resources.Keys, db.assertions.Keys, db.contentVersions.Keys;
    ChunkKeysAreUnique(db.documents, DocumentRule(r, a, v), r, a, v);
  }

  lemma IdentitiesObeySchema(db: Db, m: EntryMap, rs: seq<Record>)
    requires Tracks(db, m, rs) && Anchored(db)
    ensures IdentitiesHold(db)
  {
    hide Tracks, Anchored, Refers, UniqueKeyed, CandidateRule, IdentityKeyRule, SyncRunRule, IdentityKeysRefer;
    IdentityKeysAlwaysRefer(db, m, rs);
    IdentityRulesRefer(db);
    PrimaryKeysAreUnique(db);
    CandidatesAreUnique(db, m, rs);
    KeysAreUnique(db, m, rs);
  }

  lemma RecordsDiffer(db: Db, m: EntryMap, rs: seq<Record>, i: nat, j: nat)
    requires Tracks(db, m, rs) && i < j < |rs|
    ensures rs[i].id != rs[j].id && rs[i].versions != [] && rs[j].versions != []
  {
    TrackedEntries(db, m, rs);
    hide Tracks;
  }

  lemma ObjectKeyDecides(t: Table<SourceObject>, sources: set<Id>, j: Id, k: Id)
    requires UniqueKeyed(t, SourceObjectRule(sources)) && j in t && k in t
    ensures t[j].sourceId == t[k].sourceId && t[j].external == t[k].external ==> j == k
  {
  }

  lemma ExternalsDiffer(db: Db, m: EntryMap, rs: seq<Record>, i: nat, j: nat)
    requires Tracks(db, m, rs) && UniqueKeyed(db.sourceObjects, SourceObjectRule(db.sources.Keys)) && i < j < |rs|
    ensures !SameExternal(rs[i], rs[j])
  {
    hide Tracks, UniqueKeyed, SourceObjectRule;
    RecordsDiffer(db, m, rs, i, j);
    StoredRows(db, m, rs, i, 0);
    StoredRows(db, m, rs, j, 0);
    ObjectKeyDecides(db.sourceObjects, db.sources.Keys, SourceObjectId(rs[i].id), SourceObjectId(rs[j].id));
  }

  lemma RowOf<T(!new)>(t: Table<T>, m: EntryMap, row: (Entry, Id) -> Option<T>, k: Id)
    requires Holds(t, m, row) && Owner(k) in m && row(m[Owner(k)], k).Some?
    ensures k in t && Some(t[k]) == row(m[Owner(k)], k)
  {
  }

  lemma TrackedSources(db: Db, m: EntryMap, rs: seq<Record>)
    requires Tracks(db, m, rs)
    ensures Holds(db.sourceObjects, m, SourceObjectOf) && Holds(db.sourceVersions, m, SourceVersionOf)
  {
  }

  lemma SourceRowsOf(e: Entry, v: nat)
    requires v < |e.record.versions|
    ensures var r := e.record;
            && Owner(SourceObjectId(r.id)) == r.id && SourceObjectOf(e, SourceObjectId(r.id)).Some?
            && SourceObjectOf(e, SourceObjectId(r.id)).value.sourceId == SourceId(r.sourceSystem)
            && SourceObjectOf(e, SourceObjectId(r.id)).value.external == r.external
            && Owner(SourceVersionId(r.id, v + 1)) == r.id && SourceVersionOf(e, SourceVersionId(r.id, v + 1)).Some?
            && SourceVersionOf(e, SourceVersionId(r.id, v + 1)).value.sourceObjectId == SourceObjectId(r.id)
            && SourceVersionOf(e, SourceVersionId(r.id, v + 1)).value.hash == r.versions[v].contentHashKey
  {
  }

  lemma StoredRows(db: Db, m: EntryMap, rs: seq<Record>, i: nat, v: nat)
    requires Tracks(db, m, rs) && i < |rs| && v < |rs[i].versions|
    ensures var k := SourceObjectId(rs[i].id);
            k in db.sourceObjects && db.sourceObjects[k].sourceId == SourceId(rs[i].sourceSystem)
            && db.sourceObjects[k].external == rs[i].external
    ensures var k := SourceVersionId(rs[i].id, v + 1);
            && k in db.sourceVersions && db.sourceVersions[k].sourceObjectId == SourceObjectId(rs[i].id)
            && db.sourceVersions[k].hash == rs[i].versions[v].contentHashKey
  {
    hide Tracks, Holds, WellFormedEntries, WellFormedRecord, SourceObjectOf, SourceVersionOf, Owner, ById;
    TrackedEntries(db, m, rs);
    TrackedSources(db, m, rs);
    ByIdAt(rs, i);
    SourceRowsOf(m[rs[i].id], v);
    RowOf(db.sourceObjects, m, SourceObjectOf, SourceObjectId(rs[i].id));
    RowOf(db.sourceVersions, m, SourceVersionOf, SourceVersionId(rs[i].id, v + 1));
  }

  lemma VersionKeyDecides(t: Table<SourceVersion>, sourceObjects: set<Id>, j: Id, k: Id)
    requires UniqueKeyed(t, SourceVersionRule(sourceObjects)) && j in t && k in t
    ensures t[j].sourceObjectId == t[k].sourceObjectId && t[j].hash == t[k].hash ==> j == k
  {
  }

  lemma HashesDifferInStore(db: Db, m: EntryMap, rs: seq<Record>, i: nat)
    requires Tracks(db, m, rs) && UniqueKeyed(db.sourceVersions, SourceVersionRule(db.sourceObjects.Keys)) && i < |rs|
    ensures DistinctHashes(rs[i])
  {
    hide Tracks, UniqueKeyed, SourceVersionRule;
    var r := rs[i];
    forall v, w | 0 <= v < w < |r.versions|
      ensures r.versions[v].contentHashKey != r.versions[w].contentHashKey
    {
      StoredRows(db, m, rs, i, v);
      StoredRows(db, m, rs, i, w);
      VersionKeyDecides(db.sourceVersions, db.sourceObjects.Keys, SourceVersionId(r.id, v + 1),
                        SourceVersionId(r.id, w + 1));
    }
  }

  /** Of a described database the whole schema holds if and only if its records can be told apart. */
  lemma SchemaHoldsExactly(db: Db, m: EntryMap, rs: seq<Record>)
    requires Tracks(db, m, rs) && Anchored(db)
    ensures SchemaHolds(db) <==> Storable(rs)
  {
    hide Tracks, Anchored, DistinctHashes, SameExternal, AliasesDiffer, HoldsAliases, ClaimsHold, IdentitiesHold;
    ClaimsObeySchema(db, m, rs);
    IdentitiesObeySchema(db, m, rs);
    if Storable(rs) {
      ContentsObeySchema(db, m, rs);
    }
    if ContentsHold(db) {
      forall i | 0 <= i < |rs|
        ensures DistinctHashes(rs[i])
      {
        HashesDifferInStore(db, m, rs, i);
      }
      forall i, j | 0 <= i < j < |rs|
        ensures !SameExternal(rs[i], rs[j])
      {
        ExternalsDiffer(db, m, rs, i, j);
      }
      TrackedAliases(db, m, rs);
      AliasesUniqueExactly(db.entityAliases, rs, db.resources.Keys);
    }
  }

  // ---- The rest of the database stays anchored

  lemma IngestAnchors(c: ScaleCorpus)
    ensures Anchored(Ingest(EMPTY_DB, c))
  {
    SourcesIngested(c.seed);
    IngestedSyncRuns(c);
    EntitiesAreResources(c.records);
    InsertedKeys(SourceRows(c.seed));
    InsertedKeys(EntityNameRows(c.records));
    InsertedKeys(ResourceRows(c.records));
    hide Inserted, Keys, Flat, SourceRows, SyncRunRows, EntityNameRows, ResourceRows, AliasRows, ApplyContentObjects;
  }

  lemma InsertedKeys<T>(rows: seq<Row<T>>)
    ensures Inserted(map[], rows).Keys == Keys(rows)
  {
  }

  lemma SourcesIngested(seed: int)
    ensures forall s :: SourceId(s) in Keys(SourceRows(seed))
  {
    KeysOfRows(SourceRows(seed));
    forall s: SourceSystem
      ensures SourceId(s) in Keys(SourceRows(seed))
    {
      var i: nat := match s case Research => 0 case Meetings => 1 case Crm => 2 case Documents => 3 case Messages => 4;
      assert SOURCE_SYSTEMS[i] == s;
      assert SourceId(s) in SourceRows(seed)[i].keys;
    }
  }

  lemma IngestedSyncRuns(c: ScaleCorpus)
    ensures var t := Inserted(map[], SyncRunRows(c)); forall k :: k in t ==> t[k].sourceId.SourceId?
  {
    var rows := SyncRunRows(c);
    FindKeys(rows);
    forall k | k in Keys(rows)
      ensures Find(rows, k).value.sourceId.SourceId?
    {
      FindMember(rows, k);
    }
  }

  lemma EntitiesAreResources(rs: seq<Record>)
    ensures Keys(EntityNameRows(rs)) <= Keys(ResourceRows(rs))
  {
    hide SharedRows, Flat;
    KeysOfRows(EntityNameRows(rs));
    KeysOfRows(ResourceRows(rs));
    forall k | k in Keys(EntityNameRows(rs))
      ensures k in Keys(ResourceRows(rs))
    {
      var i :| 0 <= i < |EntityNameRows(rs)| && k in EntityNameRows(rs)[i].keys;
      assert k in ResourceRows(rs)[i].keys;
    }
  }

  lemma BatchKeepsAnchored(db: Db, b: UpdateBatch)
    requires Anchored(db)
    ensures Anchored(Apply(db, b))
  {
    hide ApplySources, ApplyResources, ApplySyncRuns, Deactivate, Reindex, Revisions, ApplyContentObjects,
      ApplySourceObjects,
      ApplySourceVersions, ApplyContentVersions, ApplyAssertions, ApplyProvenance, ApplyCandidates,
      ApplyIdentityKeys;
    AppliedSyncRuns(db.syncRuns, b);
    AppliedKeys(db, b);
  }

  lemma AppliedKeys(db: Db, b: UpdateBatch)
    ensures ApplySources(db.sources, b).Keys == db.sources.Keys
            && ApplyResources(db.resources, b.records).Keys == db.resources.Keys
    ensures db.documents.Keys <= Reindex(Deactivate(db.documents, b.records), Revisions(b.records)).Keys
  {
    hide Find, Flat, Revisions, CursorRows;
  }

  lemma AppliedSyncRuns(t: Table<SyncRun>, b: UpdateBatch)
    ensures var u := ApplySyncRuns(t, b);
            forall k :: k in u ==> if k in t then u[k].sourceId == t[k].sourceId else u[k].sourceId.SourceId?
  {
    hide Find;
    var rows := NewSyncRunRows(b);
    FindKeys(rows);
    forall k | k in Keys(rows)
      ensures Find(rows, k).value.sourceId.SourceId?
    {
      FindMember(rows, k);
    }
  }

  lemma TrackedDocuments(db: Db, m: EntryMap, rs: seq<Record>)
    requires Tracks(db, m, rs)
    ensures WellFormedEntries(m) && Holds(db.documents, m, DocumentOf)
  {
  }
}
