/** The benchmark workspace as an object: one field per table, changed statement by statement, each statement
    checked against the primary, foreign and unique keys, inside a transaction that is rolled back when one fails. */
module ScaleDatabase {
  import opened Prelude
  import opened Corpus
  import opened Statements
  import opened RecordRows
  import opened ScaleTables
  import opened ScaleRows
  import opened ScaleSchema

  class Database {
    var sources: Table<Source>
    var resources: Table<Resource>
    var entities: Table<string>
    var contentObjects: Table<ContentObject>
    var entityAliases: Table<EntityAlias>
    var sourceObjects: Table<SourceObject>
    var sourceVersions: Table<SourceVersion>
    var contentVersions: Table<ContentVersion>
    var relationships: Table<Relationship>
    var assertions: Table<Assertion>
    var provenance: Table<Provenance>
    var documents: Table<Document>
    var embeddings: map<nat, Embedding>
    var candidates: Table<Candidate>
    var identityKeys: Table<IdentityKey>
    var syncRuns: Table<SyncRun>

    function Tables(): Db
      reads this
    {
      Db(sources, resources, entities, contentObjects, entityAliases, sourceObjects, sourceVersions, contentVersions,
         relationships, assertions, provenance, documents, embeddings, candidates, identityKeys, syncRuns)
    }

    /** What holds between transactions: the keys of the schema, and that candidate rows match their ids. */
    ghost predicate Valid()
      reads this
    {
      SchemaHolds(Tables()) && CandidatesMatch(candidates)
    }

    constructor ()
      ensures Valid() && Tables() == EMPTY_DB
    {
      hide SchemaHolds, CandidatesMatch;
      NothingBreaksSchema();
      sources, resources, entities := map[], map[], map[];
      contentObjects, entityAliases, sourceObjects := map[], map[], map[];
      sourceVersions, contentVersions := map[], map[];
      relationships, assertions, provenance := map[], map[], map[];
      documents, embeddings := map[], map[];
      candidates, identityKeys, syncRuns := map[], map[], map[];
    }

    /** ROLLBACK to the tables as they were at BEGIN. */
    method Rollback(saved: Db)
      modifies this
      ensures Tables() == saved
    {
      RollbackResources(saved);
      RollbackVersions(saved);
      RollbackClaims(saved);
      RollbackIdentities(saved);
    }

    method RollbackResources(saved: Db)
      modifies `sources, `resources, `entities, `contentObjects, `entityAliases
      ensures sources == saved.sources && resources == saved.resources && entities == saved.entities
      ensures contentObjects == saved.contentObjects && entityAliases == saved.entityAliases
    {
      sources := saved.sources;
      resources := saved.resources;
      entities := saved.entities;
      contentObjects := saved.contentObjects;
      entityAliases := saved.entityAliases;
    }

    method RollbackVersions(saved: Db)
      modifies `sourceObjects, `sourceVersions, `contentVersions
      ensures sourceObjects == saved.sourceObjects
      ensures sourceVersions == saved.sourceVersions && contentVersions == saved.contentVersions
    {
      sourceObjects := saved.sourceObjects;
      sourceVersions := saved.sourceVersions;
      contentVersions := saved.contentVersions;
    }

    method RollbackClaims(saved: Db)
      modifies `relationships, `assertions, `provenance, `documents
      ensures relationships == saved.relationships && assertions == saved.assertions
      ensures provenance == saved.provenance && documents == saved.documents
    {
      relationships := saved.relationships;
      assertions := saved.assertions;
      provenance := saved.provenance;
      documents := saved.documents;
    }

    method RollbackIdentities(saved: Db)
      modifies `embeddings, `candidates, `identityKeys, `syncRuns
      ensures embeddings == saved.embeddings && candidates == saved.candidates
      ensures identityKeys == saved.identityKeys && syncRuns == saved.syncRuns
    {
      embeddings := saved.embeddings;
      candidates := saved.candidates;
      identityKeys := saved.identityKeys;
      syncRuns := saved.syncRuns;
    }

    // ---- The statements of an ingest, in four groups

    /** Sources, resources, entity names, content objects without a version yet, and client aliases. */
    method IngestResources(c: ScaleCorpus) returns (done: Option<()>)
      requires WellFormed(c.records) && ContentsHold(Tables())
      modifies `sources, `resources, `entities, `contentObjects, `entityAliases
      ensures done.Some? <==>
              && ResourcesFit(old(sources), old(resources), old(entities), old(contentObjects), old(entityAliases), c)
              && ContentsHold(WithResources(old(Tables()), c))
      ensures done.Some? ==> sources == Inserted(old(sources), SourceRows(c.seed))
      ensures done.Some? ==> resources == Inserted(old(resources), ResourceRows(c.records))
      ensures done.Some? ==> entities == Inserted(old(entities), EntityNameRows(c.records))
      ensures done.Some? ==> contentObjects == Inserted(old(contentObjects), Flat(c.records, ContentObjectRows))
      ensures done.Some? ==> entityAliases == Inserted(old(entityAliases), AliasRows(c.records))
    {
      hide Fits, Inserted, Flat, Disjoint, WellFormed, SourceRows, ResourceRows, EntityNameRows, AliasRows, Obeys,
        ContentsHold, ContentObjectRule, EntityRule, AliasRule, NoRule;
      IngestRowsDisjoint(c);
      ResourcesObey(Tables(), c);
      sources :- RunFreeInsert(sources, SourceRows(c.seed));
      resources :- RunFreeInsert(resources, ResourceRows(c.records));
      entities :- RunInsert(EntityRule(resources.Keys), entities, EntityNameRows(c.records));
      contentObjects :- RunInsert(ContentObjectRule(resources.Keys, contentVersions.Keys), contentObjects,
                                  Flat(c.records, ContentObjectRows));
      entityAliases :- RunInsert(AliasRule(resources.Keys), entityAliases, AliasRows(c.records));
      done := Some(());
    }

    /** Source objects with all their versions, then the pointers to the current ones. */
    method IngestVersions(c: ScaleCorpus) returns (done: Option<()>)
      requires WellFormed(c.records) && ContentsHold(Tables())
      modifies `sourceObjects, `sourceVersions, `contentVersions, `contentObjects
      ensures done.Some? <==>
              && VersionsFit(old(sourceObjects), old(sourceVersions), old(contentVersions), c)
              && ContentsHold(WithVersions(old(Tables()), c))
      ensures done.Some? ==> contentObjects == ApplyContentObjects(old(contentObjects), c.records)
      ensures done.Some? ==> sourceObjects == Inserted(old(sourceObjects), Flat(c.records, SourceObjectRows))
      ensures done.Some? ==> sourceVersions == Inserted(old(sourceVersions), Flat(c.records, SourceVersionRows))
      ensures done.Some? ==> contentVersions == Inserted(old(contentVersions), Flat(c.records, ContentVersionRows))
    {
      hide Fits, Inserted, Flat, Disjoint, WellFormed, Obeys, Updated, KeepsKey, Stable, ContentsHold,
        ContentObjectRule, SourceObjectRule, SourceVersionRule, ContentVersionRule;
      IngestRowsDisjoint(c);
      StatementsKeepUniqueKeys();
      StatementsAreStable();
      VersionsObey(Tables(), c);
      sourceObjects :- RunInsert(SourceObjectRule(sources.Keys), sourceObjects, Flat(c.records, SourceObjectRows));
      sourceVersions :- RunInsert(SourceVersionRule(sourceObjects.Keys), sourceVersions,
                                  Flat(c.records, SourceVersionRows));
      contentVersions :- RunInsert(ContentVersionRule(resources.Keys, sourceVersions.Keys), contentVersions,
                                   Flat(c.records, ContentVersionRows));
      contentObjects :- RunUpdate(SET_CURRENT_VERSION, ContentObjectRule(resources.Keys, contentVersions.Keys),
                                  contentObjects, Flat(c.records, PointerRows));
      done := Some(());
    }

    /** Everything up to the versions. */
    method IngestContents(c: ScaleCorpus) returns (done: Option<()>)
      requires WellFormed(c.records) && SchemaHolds(Tables())
      modifies `sources, `resources, `entities, `contentObjects, `entityAliases
      modifies `sourceObjects, `sourceVersions, `contentVersions
      ensures done.Some? <==>
              && ResourcesFit(old(sources), old(resources), old(entities), old(contentObjects), old(entityAliases), c)
              && VersionsFit(old(sourceObjects), old(sourceVersions), old(contentVersions), c)
              && ContentsHold(WithContents(old(Tables()), c))
      ensures done.Some? ==> Tables() == WithContents(old(Tables()), c) && SchemaHolds(Tables())
    {
      hide ResourcesFit, VersionsFit, WellFormed, ContentsHold, ClaimsHold, IdentitiesHold, ApplyContentObjects,
        Inserted, Flat, SourceRows, ResourceRows, EntityNameRows, AliasRows;
      ghost var before := Tables();
      if ContentsHold(WithContents(before, c)) {
        ContentsInSteps(before, c);
        ContentsKeepSchema(before, c);
      }
      done := IngestResources(c);
      if done == None {
        return;
      }
      done := IngestVersions(c);
    }

    /** Relationships, assertions, provenance and search documents. */
    method IngestClaims(c: ScaleCorpus) returns (done: Option<()>)
      requires WellFormed(c.records) && ClaimsHold(Tables())
      modifies `relationships, `assertions, `provenance, `documents
      ensures done.Some? <==>
              && ClaimsFit(old(relationships), old(assertions), old(provenance), old(documents), c)
              && ClaimsHold(WithClaims(old(Tables()), c))
      ensures done.Some? ==> relationships == Inserted(old(relationships), Flat(c.records, RelationshipRows))
      ensures done.Some? ==> assertions == Inserted(old(assertions), Flat(c.records, AssertionRows))
      ensures done.Some? ==> provenance == Inserted(old(provenance), Flat(c.records, ProvenanceRows))
      ensures done.Some? ==> documents == Inserted(old(documents), Flat(c.records, DocumentRows))
    {
      hide Fits, Inserted, Flat, Disjoint, WellFormed, Obeys, ClaimsHold, RelationshipRule, AssertionRule,
        ProvenanceRule, DocumentRule;
      IngestRowsDisjoint(c);
      ClaimsObey(Tables(), c);
      relationships :- RunInsert(RelationshipRule(resources.Keys), relationships, Flat(c.records, RelationshipRows));
      assertions :- RunInsert(AssertionRule(resources.Keys, relationships.Keys, sourceVersions.Keys), assertions,
                              Flat(c.records, AssertionRows));
      provenance :- RunInsert(ProvenanceRule(assertions.Keys, sourceVersions.Keys), provenance,
                              Flat(c.records, ProvenanceRows));
      documents :- RunInsert(DocumentRule(resources.Keys, assertions.Keys, contentVersions.Keys), documents,
                             Flat(c.records, DocumentRows));
      done := Some(());
    }

    /** Identity candidates, promoted keys and sync runs. */
    method IngestIdentities(c: ScaleCorpus) returns (done: Option<()>)
      requires WellFormed(c.records) && IdentitiesHold(Tables())
      modifies `candidates, `identityKeys, `syncRuns
      ensures done.Some? <==>
              && IdentitiesFit(old(candidates), old(identityKeys), old(syncRuns), c)
              && IdentitiesHold(WithIdentities(old(Tables()), c))
      ensures done.Some? ==> candidates == Inserted(old(candidates), Flat(c.records, CandidateRows))
      ensures done.Some? ==> identityKeys == Inserted(old(identityKeys), IdentityKeyRows(c.records))
      ensures done.Some? ==> syncRuns == Inserted(old(syncRuns), SyncRunRows(c))
    {
      hide Fits, Inserted, Flat, Disjoint, WellFormed, IdentityKeyRows, SyncRunRows, Obeys, CandidateRule,
        IdentityKeyRule, SyncRunRule;
      IngestRowsDisjoint(c);
      candidates :- RunInsert(CandidateRule(resources.Keys, sourceVersions.Keys), candidates,
                              Flat(c.records, CandidateRows));
      identityKeys :- RunInsert(IdentityKeyRule(resources.Keys, sourceVersions.Keys), identityKeys,
                                IdentityKeyRows(c.records));
      syncRuns :- RunInsert(SyncRunRule(sources.Keys), syncRuns, SyncRunRows(c));
      done := Some(());
    }

    /** The claims, and what they leave of the whole database. */
    method StoreClaims(c: ScaleCorpus) returns (done: Option<()>)
      requires WellFormed(c.records) && SchemaHolds(Tables())
      modifies `relationships, `assertions, `provenance, `documents
      ensures done.Some? <==>
              && ClaimsFit(old(relationships), old(assertions), old(provenance), old(documents), c)
              && ClaimsHold(WithClaims(old(Tables()), c))
      ensures done.Some? ==> Tables() == WithClaims(old(Tables()), c) && SchemaHolds(Tables())
    {
      hide ClaimsFit, WellFormed, ContentsHold, ClaimsHold, IdentitiesHold, Inserted, Flat;
      ghost var before := Tables();
      if ClaimsHold(WithClaims(before, c)) {
        ClaimsKeepSchema(before, c);
      }
      done := IngestClaims(c);
    }

    /** The identities, likewise. */
    method StoreIdentities(c: ScaleCorpus) returns (done: Option<()>)
      requires WellFormed(c.records) && SchemaHolds(Tables())
      modifies `candidates, `identityKeys, `syncRuns
      ensures done.Some? <==>
              && IdentitiesFit(old(candidates), old(identityKeys), old(syncRuns), c)
              && IdentitiesHold(WithIdentities(old(Tables()), c))
      ensures done.Some? ==> Tables() == WithIdentities(old(Tables()), c)
    {
      hide IdentitiesFit, WellFormed, ContentsHold, ClaimsHold, IdentitiesHold, Inserted, Flat, IdentityKeyRows,
        SyncRunRows;
      done := IngestIdentities(c);
    }

    /** All statements of an ingest; the first one that fails ends it. */
    method IngestStatements(c: ScaleCorpus) returns (done: Option<()>)
      requires WellFormed(c.records) && SchemaHolds(Tables())
      modifies this
      ensures done.Some? <==> IngestStorable(old(Tables()), c)
      ensures done.Some? ==> Tables() == Ingest(old(Tables()), c)
    {
      hide ResourcesFit, VersionsFit, ClaimsFit, IdentitiesFit, Ingest, SchemaHolds, ContentsHold, ClaimsHold,
        IdentitiesHold, WellFormed, Inserted, Flat, IdentityKeyRows, SyncRunRows, SourceRows, ResourceRows,
        EntityNameRows, AliasRows, ApplyContentObjects;
      IngestInSteps(Tables(), c);
      done := IngestContents(c);
      if done == None {
        return;
      }
      done := StoreClaims(c);
      if done == None {
        return;
      }
      done := StoreIdentities(c);
    }

    /** `ingestScaleCorpus`: everything, or nothing when a key is already taken or the schema refuses a row. */
    method IngestScaleCorpus(c: ScaleCorpus) returns (done: Option<()>)
      requires WellFormed(c.records) && Valid()
      modifies this
      ensures Valid()
      ensures done.Some? <==> IngestStorable(old(Tables()), c)
      ensures Tables() == if done.Some? then Ingest(old(Tables()), c) else old(Tables())
    {
      hide IngestFits, Ingest, WellFormed, SchemaHolds, CandidatesMatch;
      var saved := Tables();
      CandidatesMatchAfterIngest(saved, c);
      done := IngestStatements(c);
      if done == None {
        Rollback(saved);
      }
    }

    // ---- The statements of an update batch, in four groups

    /** Source objects and resources take the new values, and the documents of changed records are retired. */
    method ApplyChanges(b: UpdateBatch)
      requires DistinctIds(b.records) && SchemaHolds(Tables())
      modifies `sourceObjects, `resources, `documents, `embeddings
      ensures Tables() == RecordsChanged(old(Tables()), b) && SchemaHolds(Tables())
    {
      hide Updated, Flat, Disjoint, RetireEmbeddings, Obeys, SourceObjectRule, DocumentRule, NoRule, KeepsRule, Stable;
      BatchRowsDisjoint(b);
      StatementsKeepKeys();
      StatementsAreStable();
      RecordChangesKeepSchema(Tables(), b);
      NoRuleObeyed(resources);
      sourceObjects := RunRepatch(UPDATE_SOURCE_OBJECTS, SourceObjectRule(sources.Keys), sourceObjects,
                                  Flat(b.records, SourceObjectPatchRows));
      resources := RunRepatch(UPDATE_RESOURCES, NoRule(), resources, Flat(b.records, ResourcePatchRows));
      documents := RunRepatch(DEACTIVATE_DOCUMENTS, DocumentRule(resources.Keys, assertions.Keys, contentVersions.Keys),
                              documents, Flat(b.records, EvidenceKeyRows));
      embeddings := RetireEmbeddings(embeddings, documents);
    }

    /** The new versions are appended and become current. */
    method ApplyVersions(b: UpdateBatch) returns (done: Option<()>)
      requires DistinctIds(b.records) && ContentsHold(Tables())
      modifies `sourceVersions, `contentVersions, `contentObjects
      ensures done.Some? <==> ContentsHold(VersionsChanged(old(Tables()), b))
      ensures done.Some? ==> sourceVersions == ApplySourceVersions(old(sourceVersions), Revisions(b.records))
      ensures done.Some? ==> contentVersions == ApplyContentVersions(old(contentVersions), Revisions(b.records))
      ensures done.Some? ==> contentObjects == ApplyContentObjects(old(contentObjects), Revisions(b.records))
    {
      hide Updated, Written, Flat, Disjoint, Revisions, Obeys, KeepsKey, KeepsRule, Stable, ContentsHold,
        ContentObjectRule, SourceVersionRule, ContentVersionRule;
      BatchRowsDisjoint(b);
      StatementsKeepKeys();
      StatementsKeepUniqueKeys();
      StatementsAreStable();
      VersionsChangedObey(Tables(), b);
      var revisions := Revisions(b.records);
      sourceVersions :- RunUpsert(ADD_SOURCE_VERSIONS, SourceVersionRule(sourceObjects.Keys), sourceVersions,
                                  Flat(revisions, NewSourceVersionRows));
      contentVersions := RunRepatch(RETIRE_CONTENT_VERSIONS, ContentVersionRule(resources.Keys, sourceVersions.Keys),
                                    contentVersions, Flat(revisions, ContentKeyRows));
      contentVersions :- RunUpsert(ADD_CONTENT_VERSIONS, ContentVersionRule(resources.Keys, sourceVersions.Keys),
                                   contentVersions, Flat(revisions, NewContentVersionRows));
      contentObjects :- RunUpdate(SET_CURRENT_VERSION, ContentObjectRule(resources.Keys, contentVersions.Keys),
                                  contentObjects, Flat(revisions, PointerRows));
      done := Some(());
    }

    /** Everything up to the new versions. */
    method ApplyContents(b: UpdateBatch) returns (done: Option<()>)
      requires DistinctIds(b.records) && SchemaHolds(Tables())
      modifies `sourceObjects, `resources, `documents, `embeddings, `sourceVersions, `contentVersions, `contentObjects
      ensures done.Some? <==> ContentsHold(ContentsChanged(old(Tables()), b))
      ensures done.Some? ==> Tables() == ContentsChanged(old(Tables()), b) && SchemaHolds(Tables())
      ensures done.Some? ==> VersionsStored(sourceVersions.Keys, b)
    {
      hide RecordsChanged, DistinctIds, ContentsHold, ClaimsHold, IdentitiesHold, VersionsStored, Revisions,
        ApplySourceVersions, ApplyContentVersions, ApplyContentObjects;
      ghost var before := Tables();
      ApplyChanges(b);
      ghost var middle := Tables();
      if ContentsHold(ContentsChanged(before, b)) {
        VersionsKeepSchema(middle, b);
      }
      done := ApplyVersions(b);
    }

    /** Open assertions are closed, new ones opened, and the new text is indexed. */
    method ApplyClaims(b: UpdateBatch) returns (done: Option<()>)
      requires DistinctIds(b.records) && ClaimsHold(Tables())
      modifies `assertions, `provenance, `documents
      ensures done.Some? <==> ClaimsHold(ClaimsChanged(old(Tables()), b))
      ensures done.Some? ==> assertions == ApplyAssertions(old(assertions), Revisions(b.records))
      ensures done.Some? ==> provenance == ApplyProvenance(old(provenance), Revisions(b.records))
      ensures done.Some? ==> documents == Reindex(old(documents), Revisions(b.records))
    {
      hide Updated, Written, Flat, Disjoint, Revisions, Obeys, KeepsKey, KeepsRule, Stable, ClaimsHold,
        AssertionRule, ProvenanceRule, DocumentRule;
      BatchRowsDisjoint(b);
      StatementsKeepKeys();
      StatementsKeepUniqueKeys();
      StatementsAreStable();
      ClaimsChangedObey(Tables(), b);
      var revisions := Revisions(b.records);
      assertions := RunRepatch(CLOSE_ASSERTIONS, AssertionRule(resources.Keys, relationships.Keys, sourceVersions.Keys),
                               assertions, Flat(revisions, CloseRows));
      assertions :- RunUpsert(ADD_ASSERTIONS, AssertionRule(resources.Keys, relationships.Keys, sourceVersions.Keys),
                              assertions, Flat(revisions, NewAssertionRows));
      provenance :- RunUpsert(ADD_PROVENANCE, ProvenanceRule(assertions.Keys, sourceVersions.Keys), provenance,
                              Flat(revisions, NewProvenanceRows));
      documents :- RunUpsert(ADD_DOCUMENTS, DocumentRule(resources.Keys, assertions.Keys, contentVersions.Keys),
                             documents, Flat(revisions, NewDocumentRows));
      done := Some(());
    }

    /** Candidates and promoted keys point at the new versions, and the sources advance. */
    method ApplyIdentities(b: UpdateBatch) returns (done: Option<()>)
      requires DistinctIds(b.records) && IdentitiesHold(Tables()) && CandidatesMatch(candidates)
      requires VersionsStored(sourceVersions.Keys, b)
      modifies `candidates, `identityKeys, `sources, `syncRuns
      ensures done.Some? <==> IdentitiesHold(IdentitiesChanged(old(Tables()), b))
      ensures done.Some? ==>
                candidates == ApplyCandidates(old(candidates), Revisions(b.records)) && CandidatesMatch(candidates)
      ensures done.Some? ==> identityKeys == ApplyIdentityKeys(old(identityKeys), Revisions(b.records))
      ensures done.Some? ==> sources == ApplySources(old(sources), b)
      ensures done.Some? ==> syncRuns == ApplySyncRuns(old(syncRuns), b)
    {
      hide Updated, Written, Flat, Disjoint, Revisions, Obeys, KeepsKey, KeepsRule, Stable, CandidateRule,
        IdentityKeyRule, SyncRunRule, NoRule, VersionsStored, CandidatesMatch, MovesOwn,
        IdentityKeyPatchRows, CursorRows, NewSyncRunRows;
      BatchRowsDisjoint(b);
      StatementsKeepKeys();
      StatementsKeepUniqueKeys();
      StatementsAreStable();
      PatchesMoveOwn(b, sourceVersions.Keys);
      NoRuleObeyed(sources);
      var revisions := Revisions(b.records);
      candidates := RunMoves(resources.Keys, sourceVersions.Keys, candidates, Flat(revisions, CandidatePatchRows));
      identityKeys :- RunUpdate(UPDATE_IDENTITY_KEYS, IdentityKeyRule(resources.Keys, sourceVersions.Keys),
                                identityKeys, IdentityKeyPatchRows(revisions));
      sources := RunRepatch(ADVANCE_SOURCES, NoRule(), sources, CursorRows(b));
      syncRuns :- RunUpsert(ADD_SYNC_RUNS, SyncRunRule(sources.Keys), syncRuns, NewSyncRunRows(b));
      done := Some(());
    }

    /** The claims, and what they leave of the whole database. */
    method ReviseClaims(b: UpdateBatch) returns (done: Option<()>)
      requires DistinctIds(b.records) && SchemaHolds(Tables())
      modifies `assertions, `provenance, `documents
      ensures done.Some? <==> ClaimsHold(ClaimsChanged(old(Tables()), b))
      ensures done.Some? ==> Tables() == ClaimsChanged(old(Tables()), b) && SchemaHolds(Tables())
    {
      hide DistinctIds, ContentsHold, ClaimsHold, IdentitiesHold, Revisions, ApplyAssertions, ApplyProvenance, Reindex;
      ghost var before := Tables();
      if ClaimsHold(ClaimsChanged(before, b)) {
        ClaimsChangedKeepSchema(before, b);
      }
      done := ApplyClaims(b);
    }

    /** The identities, likewise. */
    method ReviseIdentities(b: UpdateBatch) returns (done: Option<()>)
      requires DistinctIds(b.records) && SchemaHolds(Tables()) && CandidatesMatch(candidates)
      requires VersionsStored(sourceVersions.Keys, b)
      modifies `candidates, `identityKeys, `sources, `syncRuns
      ensures done.Some? <==> IdentitiesHold(IdentitiesChanged(old(Tables()), b))
      ensures done.Some? ==> Tables() == IdentitiesChanged(old(Tables()), b) && CandidatesMatch(candidates)
    {
      hide DistinctIds, ContentsHold, ClaimsHold, IdentitiesHold, CandidatesMatch, VersionsStored, Revisions,
        ApplyCandidates, ApplyIdentityKeys, ApplySources, ApplySyncRuns;
      done := ApplyIdentities(b);
    }

    /** All statements of a batch; the first one that fails ends it. */
    method ApplyStatements(b: UpdateBatch) returns (done: Option<()>)
      requires DistinctIds(b.records) && Valid()
      modifies this
      ensures done.Some? <==> SchemaHolds(Apply(old(Tables()), b))
      ensures done.Some? ==> Tables() == Apply(old(Tables()), b) && CandidatesMatch(candidates)
    {
      hide ContentsChanged, ClaimsChanged, IdentitiesChanged, Apply, SchemaHolds, ContentsHold, ClaimsHold,
        IdentitiesHold,
        DistinctIds, CandidatesMatch, VersionsStored;
      BatchInSteps(Tables(), b);
      done := ApplyContents(b);
      if done == None {
        return;
      }
      done := ReviseClaims(b);
      if done == None {
        return;
      }
      done := ReviseIdentities(b);
    }

    /** `applyScaleUpdateBatch`: everything, or nothing when the schema refuses a row. */
    method ApplyScaleUpdateBatch(b: UpdateBatch) returns (done: Option<()>)
      requires DistinctIds(b.records) && Valid()
      modifies this
      ensures Valid()
      ensures done.Some? <==> SchemaHolds(Apply(old(Tables()), b))
      ensures Tables() == if done.Some? then Apply(old(Tables()), b) else old(Tables())
    {
      hide Apply, SchemaHolds, DistinctIds, CandidatesMatch;
      var saved := Tables();
      done := ApplyStatements(b);
      if done == None {
        Rollback(saved);
      }
    }
  }

  lemma StatementsAreStable()
    ensures Stable(SET_CURRENT_VERSION) && Stable(UPDATE_SOURCE_OBJECTS) && Stable(UPDATE_RESOURCES)
    ensures Stable(DEACTIVATE_DOCUMENTS) && Stable(RETIRE_CONTENT_VERSIONS) && Stable(CLOSE_ASSERTIONS)
    ensures Stable(UPDATE_CANDIDATES) && Stable(UPDATE_IDENTITY_KEYS) && Stable(ADVANCE_SOURCES)
  {
  }

  /** One INSERT sent in batches: it fails exactly when a key is taken or the table would break its rule. */
  method RunInsert<T(!new)>(rule: Rule<T>, t: Table<T>, rows: seq<Row<T>>) returns (r: Option<Table<T>>)
    requires Disjoint(rows) && Obeys(t, rule)
    ensures r == if Fits(t, rows) && Obeys(Inserted(t, rows), rule) then Some(Inserted(t, rows)) else None
  {
    hide Obeys, Disjoint;
    r := InsertBatches(Inserting<T>(), rule, t, rows);
    BatchingIsInvisible(Inserting<T>(), rule, t, rows);
  }

  /** The same for a table whose only key is the primary key. */
  method RunFreeInsert<T(!new)>(t: Table<T>, rows: seq<Row<T>>) returns (r: Option<Table<T>>)
    requires Disjoint(rows)
    ensures r == if Fits(t, rows) then Some(Inserted(t, rows)) else None
  {
    hide Obeys, Disjoint, Fits, Inserted, NoRule;
    NoRuleObeyed(t);
    NoRuleObeyed(Inserted(t, rows));
    r := RunInsert(NoRule(), t, rows);
  }

  /** One INSERT .. ON CONFLICT sent in batches. */
  method RunUpsert<T(!new)>(s: Statement<T, T>, rule: Rule<T>, t: Table<T>, rows: seq<Row<T>>)
    returns (r: Option<Table<T>>)
    requires Disjoint(rows) && (s.InsertOrIgnore? || s.InsertOrUpdate?) && KeepsKey(s, rule) && Obeys(t, rule)
    ensures var u := Written(t, rows, s.make, if s.InsertOrUpdate? then s.onConflict else Keep);
            r == if Obeys(u, rule) then Some(u) else None
  {
    hide Obeys, Disjoint, KeepsKey, Written;
    r := InsertBatches(s, rule, t, rows);
    BatchingIsInvisible(s, rule, t, rows);
  }

  /** One UPDATE sent in batches. */
  method RunUpdate<T(!new), P(!new)>(s: Statement<T, P>, rule: Rule<T>, t: Table<T>, rows: seq<Row<P>>)
    returns (r: Option<Table<T>>)
    requires Disjoint(rows) && s.Update? && Stable(s) && KeepsKey(s, rule) && Obeys(t, rule)
    ensures var u := Updated(t, rows, s.join, s.assign);
            r == if Obeys(u, rule) then Some(u) else None
  {
    hide Obeys, Disjoint, KeepsKey, Updated;
    r := InsertBatches(s, rule, t, rows);
    BatchingIsInvisible(s, rule, t, rows);
  }

  /** One UPDATE that assigns no key column, sent in batches; it cannot fail. */
  method RunRepatch<T(!new), P(!new)>(s: Statement<T, P>, rule: Rule<T>, t: Table<T>, rows: seq<Row<P>>)
    returns (r: Table<T>)
    requires Disjoint(rows) && Stable(s) && KeepsRule(s, rule) && Obeys(t, rule)
    ensures r == Updated(t, rows, s.join, s.assign) && r.Keys == t.Keys && Obeys(r, rule)
  {
    UpdateObeys(s, rule, t, rows);
    assert Updated(t, rows, s.join, s.assign).Keys == t.Keys;
    assert KeepsKey(s, rule);
    hide Obeys, Disjoint, Updated, KeepsRule, KeepsKey;
    var result := RunUpdate(s, rule, t, rows);
    r := result.value;
  }

  /** Moving candidates, sent in batches; whatever the slices, it cannot fail. */
  method RunMoves(resources: set<Id>, sourceVersions: set<Id>, t: Table<Candidate>, rows: seq<Row<Id>>)
    returns (r: Table<Candidate>)
    requires Disjoint(rows) && MovesOwn(rows, sourceVersions)
    requires CandidatesMatch(t) && Obeys(t, CandidateRule(resources, sourceVersions))
    ensures r == Updated(t, rows, UPDATE_CANDIDATES.join, UPDATE_CANDIDATES.assign)
    ensures CandidatesMatch(r) && Obeys(r, CandidateRule(resources, sourceVersions))
  {
    hide Obeys, Disjoint, Updated, CandidatesMatch, MovesOwn, CandidateRule, Stable;
    StatementsAreStable();
    MovesAreStored(t, rows, resources, sourceVersions);
    MovedObey(t, rows, resources, sourceVersions);
    SlicesTakeEffect(UPDATE_CANDIDATES, CandidateRule(resources, sourceVersions), t, rows);
    var result := InsertBatches(UPDATE_CANDIDATES, CandidateRule(resources, sourceVersions), t, rows);
    r := result.value;
  }
}
