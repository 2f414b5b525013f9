/** The foreign and unique keys of the schema, table by table, and how the statements of the two write
    paths stand to them. */
module ScaleSchema {
  import opened Prelude
  import opened Corpus
  import opened Statements
  import opened RecordRows
  import opened ScaleTables

  function NoRule<T>(): Rule<T> {
    Rule((k, t) => true, (k, t) => PrimaryKey(k))
  }

  function EntityRule(resources: set<Id>): Rule<string> {
    Rule((k, t) => k in resources, (k, t) => PrimaryKey(k))
  }

  /** `current_version_id` may be NULL. */
  function ContentObjectRule(resources: set<Id>, contentVersions: set<Id>): Rule<ContentObject> {
    Rule((k, t: ContentObject) => k in resources
                                  && (t.currentVersionId.Some? ==> t.currentVersionId.value in contentVersions),
         (k, t) => PrimaryKey(k))
  }

  /** The unique key of `entity_aliases`: its other three columns are the same in every row. */
  function AliasRule(resources: set<Id>): Rule<EntityAlias> {
    Rule((k, t: EntityAlias) => t.resourceId in resources, (k, t: EntityAlias) => AliasKey(t.normalized))
  }

  function SourceObjectRule(sources: set<Id>): Rule<SourceObject> {
    Rule((k, t: SourceObject) => t.sourceId in sources,
         (k, t: SourceObject) => ObjectKey(t.sourceId, t.external))
  }

  function SourceVersionRule(sourceObjects: set<Id>): Rule<SourceVersion> {
    Rule((k, t: SourceVersion) => t.sourceObjectId in sourceObjects,
         (k, t: SourceVersion) => VersionKey(t.sourceObjectId, t.hash))
  }

  function ContentVersionRule(resources: set<Id>, sourceVersions: set<Id>): Rule<ContentVersion> {
    Rule((k, t: ContentVersion) => t.contentId in resources && t.sourceVersionId in sourceVersions,
         (k, t) => PrimaryKey(k))
  }

  function RelationshipRule(resources: set<Id>): Rule<Relationship> {
    Rule((k, t: Relationship) => t.fromId in resources && t.toId in resources,
         (k, t: Relationship) => RelationKey(t.fromId, t.toId, t.stance))
  }

  function AssertionRule(resources: set<Id>, relationships: set<Id>, sourceVersions: set<Id>): Rule<Assertion> {
    Rule((k, t: Assertion) =>
           && t.subject in resources && t.target in resources
           && t.relationshipId in relationships && t.sourceVersionId in sourceVersions,
         (k, t) => PrimaryKey(k))
  }

  function ProvenanceRule(assertions: set<Id>, sourceVersions: set<Id>): Rule<Provenance> {
    Rule((k, t: Provenance) => t.assertionId in assertions && t.sourceVersionId in sourceVersions,
         (k, t) => PrimaryKey(k))
  }

  function DocumentRule(resources: set<Id>, assertions: set<Id>, contentVersions: set<Id>): Rule<Document> {
    Rule((k, t: Document) => t.resourceId in resources && t.assertionId in assertions
                             && t.contentVersionId in contentVersions,
         (k, t: Document) => ChunkKey(t.contentVersionId, t.resourceId, t.chunkIndex))
  }

  function CandidateRule(resources: set<Id>, sourceVersions: set<Id>): Rule<Candidate> {
    Rule((k, t: Candidate) => t.resourceId in resources && t.sourceVersionId in sourceVersions,
         (k, t: Candidate) => CandidateKey(t.system, t.keyType, t.externalKey, t.resourceId, t.sourceVersionId))
  }

  function IdentityKeyRule(resources: set<Id>, sourceVersions: set<Id>): Rule<IdentityKey> {
    Rule((k, t: IdentityKey) => t.resourceId in resources && t.sourceVersionId in sourceVersions,
         (k, t: IdentityKey) => ReferenceKey(t.system, t.keyType, t.externalKey))
  }

  function SyncRunRule(sources: set<Id>): Rule<SyncRun> {
    Rule((k, t: SyncRun) => t.sourceId in sources, (k, t) => PrimaryKey(k))
  }

  /** Every embedding names a document: the foreign key of `search_embeddings`. */
  predicate EmbeddingsRefer(embeddings: map<nat, Embedding>, documents: Table<Document>) {
    forall e | e in embeddings :: embeddings[e].documentId in documents
  }

  predicate ContentsHold(db: Db) {
    && Obeys(db.entities, EntityRule(db.resources.Keys))
    && Obeys(db.contentObjects, ContentObjectRule(db.resources.Keys, db.contentVersions.Keys))
    && Obeys(db.entityAliases, AliasRule(db.resources.Keys))
    && Obeys(db.sourceObjects, SourceObjectRule(db.sources.Keys))
    && Obeys(db.sourceVersions, SourceVersionRule(db.sourceObjects.Keys))
    && Obeys(db.contentVersions, ContentVersionRule(db.resources.Keys, db.sourceVersions.Keys))
  }

  predicate ClaimsHold(db: Db) {
    && Obeys(db.relationships, RelationshipRule(db.resources.Keys))
    && Obeys(db.assertions, AssertionRule(db.resources.Keys, db.relationships.Keys, db.sourceVersions.Keys))
    && Obeys(db.provenance, ProvenanceRule(db.assertions.Keys, db.sourceVersions.Keys))
    && Obeys(db.documents, DocumentRule(db.resources.Keys, db.assertions.Keys, db.contentVersions.Keys))
    && EmbeddingsRefer(db.embeddings, db.documents)
  }

  predicate IdentitiesHold(db: Db) {
    && Obeys(db.candidates, CandidateRule(db.resources.Keys, db.sourceVersions.Keys))
    && Obeys(db.identityKeys, IdentityKeyRule(db.resources.Keys, db.sourceVersions.Keys))
    && Obeys(db.syncRuns, SyncRunRule(db.sources.Keys))
  }

  /** No foreign key dangles and no unique key is taken twice. */
  predicate SchemaHolds(db: Db) {
    ContentsHold(db) && ClaimsHold(db) && IdentitiesHold(db)
  }

  /** A candidate row describes the record and resource that its id is made from. */
  predicate CandidatesMatch(t: Table<Candidate>) {
    forall k | k in t :: CandidateMatches(k, t[k])
  }

  predicate CandidateMatches(k: Id, c: Candidate) {
    k.CandidateId? && c.sourceVersionId.SourceVersionId?
    && k == CandidateId(c.sourceVersionId.record, c.keyType, c.resourceId)
  }

  lemma NoRowsObey<T>(rule: Rule<T>)
    ensures Obeys(map[], rule)
  {
  }

  lemma NothingBreaksSchema()
    ensures SchemaHolds(EMPTY_DB) && CandidatesMatch(EMPTY_DB.candidates)
  {
    hide Obeys;
    assert EMPTY_DB.resources.Keys == {};
    NoRowsObey(EntityRule({}));
    NoRowsObey(ContentObjectRule({}, {}));
    NoRowsObey(AliasRule({}));
    NoRowsObey(SourceObjectRule({}));
    NoRowsObey(SourceVersionRule({}));
    NoRowsObey(ContentVersionRule({}, {}));
    NoRowsObey(RelationshipRule({}));
    NoRowsObey(AssertionRule({}, {}, {}));
    NoRowsObey(ProvenanceRule({}, {}));
    NoRowsObey(DocumentRule({}, {}, {}));
    NoRowsObey(CandidateRule({}, {}));
    NoRowsObey(IdentityKeyRule({}, {}));
    NoRowsObey(SyncRunRule({}));
  }

  // ---- The effect of the two write paths, in groups

  function WithResources(db: Db, c: ScaleCorpus): Db {
    db.(sources := Inserted(db.sources, SourceRows(c.seed)),
    resources := Inserted(db.resources, ResourceRows(c.records)),
    entities := Inserted(db.entities, EntityNameRows(c.records)),
    contentObjects := Inserted(db.contentObjects, Flat(c.records, ContentObjectRows)),
    entityAliases := Inserted(db.entityAliases, AliasRows(c.records)))
  }

  function WithVersions(db: Db, c: ScaleCorpus): Db {
    db.(sourceObjects := Inserted(db.sourceObjects, Flat(c.records, SourceObjectRows)),
    sourceVersions := Inserted(db.sourceVersions, Flat(c.records, SourceVersionRows)),
    contentVersions := Inserted(db.contentVersions, Flat(c.records, ContentVersionRows)),
    contentObjects := ApplyContentObjects(db.contentObjects, c.records))
  }

  function WithContents(db: Db, c: ScaleCorpus): Db {
    WithVersions(WithResources(db, c), c)
  }

  function WithClaims(db: Db, c: ScaleCorpus): Db {
    db.(relationships := Inserted(db.relationships, Flat(c.records, RelationshipRows)),
    assertions := Inserted(db.assertions, Flat(c.records, AssertionRows)),
    provenance := Inserted(db.provenance, Flat(c.records, ProvenanceRows)),
    documents := Inserted(db.documents, Flat(c.records, DocumentRows)))
  }

  function WithIdentities(db: Db, c: ScaleCorpus): Db {
    db.(candidates := Inserted(db.candidates, Flat(c.records, CandidateRows)),
    identityKeys := Inserted(db.identityKeys, IdentityKeyRows(c.records)),
    syncRuns := Inserted(db.syncRuns, SyncRunRows(c)))
  }

  function RecordsChanged(db: Db, b: UpdateBatch): Db {
    db.(sourceObjects := ApplySourceObjects(db.sourceObjects, b.records),
    resources := ApplyResources(db.resources, b.records),
    documents := Deactivate(db.documents, b.records),
    embeddings := RetireEmbeddings(db.embeddings, Deactivate(db.documents, b.records)))
  }

  function VersionsChanged(db: Db, b: UpdateBatch): Db {
    var revisions := Revisions(b.records);
    db.(sourceVersions := ApplySourceVersions(db.sourceVersions, revisions),
    contentVersions := ApplyContentVersions(db.contentVersions, revisions),
    contentObjects := ApplyContentObjects(db.contentObjects, revisions))
  }

  function ContentsChanged(db: Db, b: UpdateBatch): Db {
    VersionsChanged(RecordsChanged(db, b), b)
  }

  function ClaimsChanged(db: Db, b: UpdateBatch): Db {
    var revisions := Revisions(b.records);
    db.(assertions := ApplyAssertions(db.assertions, revisions),
    provenance := ApplyProvenance(db.provenance, revisions),
    documents := Reindex(db.documents, revisions))
  }

  function IdentitiesChanged(db: Db, b: UpdateBatch): Db {
    var revisions := Revisions(b.records);
    db.(candidates := ApplyCandidates(db.candidates, revisions),
    identityKeys := ApplyIdentityKeys(db.identityKeys, revisions),
    sources := ApplySources(db.sources, b),
    syncRuns := ApplySyncRuns(db.syncRuns, b))
  }

  /** The whole ingest can be stored: no key it needs is taken, and what it leaves obeys the schema. */
  predicate IngestStorable(db: Db, c: ScaleCorpus) {
    IngestFits(db, c) && SchemaHolds(Ingest(db, c))
  }

  // ---- Keys that hold keep holding while other tables grow

  /** Nothing that a row can refer to disappears. */
  predicate Grows(before: Db, after: Db) {
    && before.sources.Keys <= after.sources.Keys && before.resources.Keys <= after.resources.Keys
    && before.sourceObjects.Keys <= after.sourceObjects.Keys && before.sourceVersions.Keys <= after.sourceVersions.Keys
    && before.contentVersions.Keys <= after.contentVersions.Keys
    && before.relationships.Keys <= after.relationships.Keys
    && before.assertions.Keys <= after.assertions.Keys && before.documents.Keys <= after.documents.Keys
  }

  lemma ContentsCarry(before: Db, after: Db)
    requires ContentsHold(before) && Grows(before, after)
    ensures Obeys(before.entities, EntityRule(after.resources.Keys))
    ensures Obeys(before.contentObjects, ContentObjectRule(after.resources.Keys, after.contentVersions.Keys))
    ensures Obeys(before.entityAliases, AliasRule(after.resources.Keys))
    ensures Obeys(before.sourceObjects, SourceObjectRule(after.sources.Keys))
    ensures Obeys(before.sourceVersions, SourceVersionRule(after.sourceObjects.Keys))
    ensures Obeys(before.contentVersions, ContentVersionRule(after.resources.Keys, after.sourceVersions.Keys))
  {
    hide Obeys;
    var r, r' := before.resources.Keys, after.resources.Keys;
    ObeysMore(before.entities, EntityRule(r), EntityRule(r'));
    ObeysMore(before.contentObjects, ContentObjectRule(r, before.contentVersions.Keys),
              ContentObjectRule(r', after.contentVersions.Keys));
    ObeysMore(before.entityAliases, AliasRule(r), AliasRule(r'));
    ObeysMore(before.sourceObjects, SourceObjectRule(before.sources.Keys), SourceObjectRule(after.sources.Keys));
    ObeysMore(before.sourceVersions, SourceVersionRule(before.sourceObjects.Keys),
              SourceVersionRule(after.sourceObjects.Keys));
    ObeysMore(before.contentVersions, ContentVersionRule(r, before.sourceVersions.Keys),
              ContentVersionRule(r', after.sourceVersions.Keys));
  }

  lemma ClaimsCarry(before: Db, after: Db)
    requires ClaimsHold(before) && Grows(before, after)
    ensures Obeys(before.relationships, RelationshipRule(after.resources.Keys))
    ensures Obeys(before.assertions, AssertionRule(after.resources.Keys, after.relationships.Keys,
                                                   after.sourceVersions.Keys))
    ensures Obeys(before.provenance, ProvenanceRule(after.assertions.Keys, after.sourceVersions.Keys))
    ensures Obeys(before.documents, DocumentRule(after.resources.Keys, after.assertions.Keys,
                                                 after.contentVersions.Keys))
    ensures EmbeddingsRefer(before.embeddings, after.documents)
  {
    hide Obeys;
    var r, r', v, v' := before.resources.Keys, after.resources.Keys, before.sourceVersions.Keys,
                        after.sourceVersions.Keys;
    ObeysMore(before.relationships, RelationshipRule(r), RelationshipRule(r'));
    ObeysMore(before.assertions, AssertionRule(r, before.relationships.Keys, v),
              AssertionRule(r', after.relationships.Keys, v'));
    ObeysMore(before.provenance, ProvenanceRule(before.assertions.Keys, v), ProvenanceRule(after.assertions.Keys, v'));
    ObeysMore(before.documents, DocumentRule(r, before.assertions.Keys, before.contentVersions.Keys),
              DocumentRule(r', after.assertions.Keys, after.contentVersions.Keys));
  }

  lemma IdentitiesCarry(before: Db, after: Db)
    requires IdentitiesHold(before) && Grows(before, after)
    ensures Obeys(before.candidates, CandidateRule(after.resources.Keys, after.sourceVersions.Keys))
    ensures Obeys(before.identityKeys, IdentityKeyRule(after.resources.Keys, after.sourceVersions.Keys))
    ensures Obeys(before.syncRuns, SyncRunRule(after.sources.Keys))
  {
    hide Obeys;
    var r, r', v, v' := before.resources.Keys, after.resources.Keys, before.sourceVersions.Keys,
                        after.sourceVersions.Keys;
    ObeysMore(before.candidates, CandidateRule(r, v), CandidateRule(r', v'));
    ObeysMore(before.identityKeys, IdentityKeyRule(r, v), IdentityKeyRule(r', v'));
    ObeysMore(before.syncRuns, SyncRunRule(before.sources.Keys), SyncRunRule(after.sources.Keys));
  }

  predicate SameContents(before: Db, after: Db) {
    && after.entities == before.entities && after.contentObjects == before.contentObjects
    && after.entityAliases == before.entityAliases
    && after.sourceObjects == before.sourceObjects && after.sourceVersions == before.sourceVersions
    && after.contentVersions == before.contentVersions
  }

  predicate SameClaims(before: Db, after: Db) {
    && after.relationships == before.relationships && after.assertions == before.assertions
    && after.provenance == before.provenance && after.documents == before.documents
    && after.embeddings == before.embeddings
  }

  predicate SameIdentities(before: Db, after: Db) {
    && after.candidates == before.candidates && after.identityKeys == before.identityKeys
    && after.syncRuns == before.syncRuns
  }

  /** Tables of the other groups that stay as they are keep their keys. */
  lemma OtherGroupsKeep(before: Db, after: Db)
    requires SchemaHolds(before) && Grows(before, after)
    ensures SameContents(before, after) ==> ContentsHold(after)
    ensures SameClaims(before, after) ==> ClaimsHold(after)
    ensures SameIdentities(before, after) ==> IdentitiesHold(after)
  {
    hide Obeys, Grows, EmbeddingsRefer;
    ContentsCarry(before, after);
    ClaimsCarry(before, after);
    IdentitiesCarry(before, after);
  }

  lemma NoRuleObeyed<T>(t: Table<T>)
    ensures Obeys(t, NoRule())
  {
  }

  // ---- The steps of an ingest

  lemma ResourcesGrow(db: Db, c: ScaleCorpus)
    ensures Grows(db, WithResources(db, c))
  {
  }

  lemma VersionsGrow(db: Db, c: ScaleCorpus)
    ensures Grows(db, WithVersions(db, c))
  {
  }

  lemma VersionsObey(db: Db, c: ScaleCorpus)
    requires ContentsHold(db)
    ensures var d := WithVersions(db, c);
            && Obeys(db.sourceObjects, SourceObjectRule(db.sources.Keys))
            && Obeys(db.sourceVersions, SourceVersionRule(d.sourceObjects.Keys))
            && Obeys(db.contentVersions, ContentVersionRule(db.resources.Keys, d.sourceVersions.Keys))
            && Obeys(db.contentObjects, ContentObjectRule(db.resources.Keys, d.contentVersions.Keys))
            && (ContentsHold(d) <==>
                && Obeys(d.sourceObjects, SourceObjectRule(db.sources.Keys))
                && Obeys(d.sourceVersions, SourceVersionRule(d.sourceObjects.Keys))
                && Obeys(d.contentVersions, ContentVersionRule(db.resources.Keys, d.sourceVersions.Keys))
                && Obeys(d.contentObjects, ContentObjectRule(db.resources.Keys, d.contentVersions.Keys)))
  {
    hide Obeys, Inserted, ApplyContentObjects, Flat, Grows;
    VersionsGrow(db, c);
    ContentsCarry(db, WithVersions(db, c));
  }

  lemma ResourcesObey(db: Db, c: ScaleCorpus)
    requires ContentsHold(db)
    ensures var d := WithResources(db, c);
            && Obeys(db.entities, EntityRule(d.resources.Keys))
            && Obeys(db.contentObjects, ContentObjectRule(d.resources.Keys, db.contentVersions.Keys))
            && Obeys(db.entityAliases, AliasRule(d.resources.Keys))
            && (ContentsHold(d) <==>
                && Obeys(d.entities, EntityRule(d.resources.Keys))
                && Obeys(d.contentObjects, ContentObjectRule(d.resources.Keys, db.contentVersions.Keys))
                && Obeys(d.entityAliases, AliasRule(d.resources.Keys)))
  {
    ResourcesGrow(db, c);
    ContentsCarry(db, WithResources(db, c));
    hide Obeys, Inserted, SourceRows, ResourceRows, EntityNameRows, AliasRows, Flat, Grows;
  }

  lemma ClaimsGrow(db: Db, c: ScaleCorpus)
    ensures Grows(db, WithClaims(db, c))
  {
  }

  lemma ClaimsObey(db: Db, c: ScaleCorpus)
    requires ClaimsHold(db)
    ensures var d := WithClaims(db, c);
            && Obeys(db.relationships, RelationshipRule(db.resources.Keys))
            && Obeys(db.assertions, AssertionRule(db.resources.Keys, d.relationships.Keys, db.sourceVersions.Keys))
            && Obeys(db.provenance, ProvenanceRule(d.assertions.Keys, db.sourceVersions.Keys))
            && Obeys(db.documents, DocumentRule(db.resources.Keys, d.assertions.Keys, db.contentVersions.Keys))
            && (ClaimsHold(d) <==>
                && Obeys(d.relationships, RelationshipRule(db.resources.Keys))
                && Obeys(d.assertions, AssertionRule(db.resources.Keys, d.relationships.Keys, db.sourceVersions.Keys))
                && Obeys(d.provenance, ProvenanceRule(d.assertions.Keys, db.sourceVersions.Keys))
                && Obeys(d.documents, DocumentRule(db.resources.Keys, d.assertions.Keys, db.contentVersions.Keys)))
  {
    ClaimsGrow(db, c);
    ClaimsCarry(db, WithClaims(db, c));
    hide Obeys, Inserted, Flat, EmbeddingsRefer;
  }

  lemma ClaimsKeepSchema(db: Db, c: ScaleCorpus)
    requires SchemaHolds(db) && ClaimsHold(WithClaims(db, c))
    ensures SchemaHolds(WithClaims(db, c))
  {
    ClaimsGrow(db, c);
    hide Inserted, Flat, ContentsHold, ClaimsHold, IdentitiesHold, Grows;
    OtherGroupsKeep(db, WithClaims(db, c));
  }

  lemma IdentitiesGrow(db: Db, c: ScaleCorpus)
    ensures Grows(db, WithIdentities(db, c))
  {
  }

  /** The keys hold for content objects without a version as soon as they hold for those that have been given one. */
  lemma ContentsInSteps(db: Db, c: ScaleCorpus)
    requires ContentsHold(db) && ContentsHold(WithContents(db, c))
    ensures ContentsHold(WithResources(db, c))
  {
    hide Inserted, Flat, SourceRows, ResourceRows, EntityNameRows, AliasRows, ApplySourceObjects, Obeys, EntityRule,
      SourceObjectRule, SourceVersionRule, ContentVersionRule, Grows, ContentObjectRule;
    ResourcesGrow(db, c);
    ContentsCarry(db, WithResources(db, c));
    PointersComeLast(db.contentObjects, c.records, WithResources(db, c).resources.Keys, db.contentVersions.Keys,
                     WithContents(db, c).contentVersions.Keys);
  }

  lemma PointersComeLast(t: Table<ContentObject>, rs: seq<Record>, resources: set<Id>, stored: set<Id>, all: set<Id>)
    requires Obeys(t, ContentObjectRule(resources, stored))
    requires Obeys(ApplyContentObjects(Inserted(t, Flat(rs, ContentObjectRows)), rs), ContentObjectRule(resources, all))
    ensures Obeys(Inserted(t, Flat(rs, ContentObjectRows)), ContentObjectRule(resources, stored))
  {
    hide Find, Flat;
    var u := Inserted(t, Flat(rs, ContentObjectRows));
    var w := ApplyContentObjects(u, rs);
    assert w.Keys == u.Keys;
    hide ApplyContentObjects;
    forall k | k in u
      ensures ContentObjectRule(resources, stored).refers(k, u[k])
    {
      assert ContentObjectRule(resources, all).refers(k, w[k]);
      NewObjectsPointNowhere(t, rs, k);
    }
  }

  lemma NewObjectsPointNowhere(t: Table<ContentObject>, rs: seq<Record>, k: Id)
    requires k in Inserted(t, Flat(rs, ContentObjectRows))
    ensures var u := Inserted(t, Flat(rs, ContentObjectRows));
            if k in t then u[k] == t[k] else u[k].currentVersionId == None
  {
    hide Find, Flat;
    var rows := Flat(rs, ContentObjectRows);
    FindKeys(rows);
    if k !in t {
      FindMember(rows, k);
      var i :| 0 <= i < |rows| && k in rows[i].keys && rows[i].val == Find(rows, k).value;
      var r := FlatFrom(rs, ContentObjectRows, rows[i]);
    }
  }

  lemma ContentsKeepSchema(db: Db, c: ScaleCorpus)
    requires SchemaHolds(db) && ContentsHold(WithContents(db, c))
    ensures SchemaHolds(WithContents(db, c))
  {
    ResourcesGrow(db, c);
    VersionsGrow(WithResources(db, c), c);
    hide Inserted, Flat, SourceRows, ResourceRows, EntityNameRows, AliasRows, ApplyContentObjects, ContentsHold,
      ClaimsHold, IdentitiesHold;
    OtherGroupsKeep(db, WithContents(db, c));
  }

  /** An ingest leaves what its three groups of statements leave, and its keys hold if and only if they hold after
      each. */
  lemma IngestInSteps(db: Db, c: ScaleCorpus)
    ensures Ingest(db, c) == WithIdentities(WithClaims(WithContents(db, c), c), c)
    ensures SchemaHolds(Ingest(db, c)) <==>
            && ContentsHold(WithContents(db, c)) && ClaimsHold(WithClaims(WithContents(db, c), c))
            && IdentitiesHold(WithIdentities(WithClaims(WithContents(db, c), c), c))
  {
    hide Inserted, Flat, SourceRows, ResourceRows, EntityNameRows, AliasRows, IdentityKeyRows, SyncRunRows,
      ApplyContentObjects, Obeys, EmbeddingsRefer;
  }

  lemma CandidatesMatchAfterIngest(db: Db, c: ScaleCorpus)
    requires CandidatesMatch(db.candidates)
    ensures CandidatesMatch(Ingest(db, c).candidates)
  {
    hide Find, Flat, CandidateMatches, CandidateRows;
    var rows := Flat(c.records, CandidateRows);
    FindKeys(rows);
    var t := Inserted(db.candidates, rows);
    forall k | k in t
      ensures CandidateMatches(k, t[k])
    {
      if k !in db.candidates {
        FindMember(rows, k);
        var i :| 0 <= i < |rows| && k in rows[i].keys && rows[i].val == t[k];
        var r := FlatFrom(c.records, CandidateRows, rows[i]);
        CandidateRowsMatch(c.records[r], rows[i], k);
      }
    }
  }

  lemma CandidateRowsMatch(r: Record, row: Row<Candidate>, k: Id)
    requires row in CandidateRows(r) && k in row.keys
    ensures CandidateMatches(k, row.val)
  {
  }

  // ---- The steps of an update batch

  /** Nothing a batch changes in a row that exists is a column of a key, except which versions are cited. */
  lemma StatementsKeepKeys()
    ensures forall s :: KeepsRule(UPDATE_SOURCE_OBJECTS, SourceObjectRule(s))
    ensures KeepsRule(UPDATE_RESOURCES, NoRule()) && KeepsRule(ADVANCE_SOURCES, NoRule())
    ensures forall r, a, v :: KeepsRule(DEACTIVATE_DOCUMENTS, DocumentRule(r, a, v))
    ensures forall r, v :: KeepsRule(RETIRE_CONTENT_VERSIONS, ContentVersionRule(r, v))
    ensures forall r, p, v :: KeepsRule(CLOSE_ASSERTIONS, AssertionRule(r, p, v))
  {
  }

  lemma StatementsKeepUniqueKeys()
    ensures forall s :: KeepsKey(ADD_SOURCE_VERSIONS, SourceVersionRule(s))
    ensures forall r, v :: KeepsKey(ADD_CONTENT_VERSIONS, ContentVersionRule(r, v))
    ensures forall r, v :: KeepsKey(SET_CURRENT_VERSION, ContentObjectRule(r, v))
    ensures forall r, p, v :: KeepsKey(ADD_ASSERTIONS, AssertionRule(r, p, v))
    ensures forall a, v :: KeepsKey(ADD_PROVENANCE, ProvenanceRule(a, v))
    ensures forall r, a, v :: KeepsKey(ADD_DOCUMENTS, DocumentRule(r, a, v))
    ensures forall r, v :: KeepsKey(UPDATE_IDENTITY_KEYS, IdentityKeyRule(r, v))
    ensures forall s :: KeepsKey(ADD_SYNC_RUNS, SyncRunRule(s))
  {
  }

  lemma RecordChangesKeepSchema(db: Db, b: UpdateBatch)
    requires SchemaHolds(db)
    ensures SchemaHolds(RecordsChanged(db, b))
  {
    RecordChangesGrow(db, b);
    hide Flat, Obeys, SourceObjectRule, DocumentRule, Updated, KeepsRule, Grows;
    var after := RecordsChanged(db, b);
    StatementsKeepKeys();
    ContentsCarry(db, after);
    ClaimsCarry(db, after);
    IdentitiesCarry(db, after);
    UpdateObeys(UPDATE_SOURCE_OBJECTS, SourceObjectRule(db.sources.Keys), db.sourceObjects,
                Flat(b.records, SourceObjectPatchRows));
    UpdateObeys(DEACTIVATE_DOCUMENTS, DocumentRule(after.resources.Keys, db.assertions.Keys, db.contentVersions.Keys),
                db.documents, Flat(b.records, EvidenceKeyRows));
  }

  lemma RecordChangesGrow(db: Db, b: UpdateBatch)
    ensures Grows(db, RecordsChanged(db, b)) && RecordsChanged(db, b).sourceObjects.Keys == db.sourceObjects.Keys
    ensures Grows(RecordsChanged(db, b), db)
  {
  }

  lemma VersionsChangedGrow(db: Db, b: UpdateBatch)
    ensures Grows(db, VersionsChanged(db, b))
  {
  }

  lemma ClaimsChangedGrow(db: Db, b: UpdateBatch)
    ensures Grows(db, ClaimsChanged(db, b))
  {
  }

  lemma VersionsChangedObey(db: Db, b: UpdateBatch)
    requires ContentsHold(db)
    ensures var d := VersionsChanged(db, b);
            && Obeys(db.sourceVersions, SourceVersionRule(db.sourceObjects.Keys))
            && Obeys(db.contentVersions, ContentVersionRule(db.resources.Keys, d.sourceVersions.Keys))
            && Obeys(db.contentObjects, ContentObjectRule(db.resources.Keys, d.contentVersions.Keys))
            && (ContentsHold(d) <==>
                && Obeys(d.sourceVersions, SourceVersionRule(db.sourceObjects.Keys))
                && Obeys(d.contentVersions, ContentVersionRule(db.resources.Keys, d.sourceVersions.Keys))
                && Obeys(d.contentObjects, ContentObjectRule(db.resources.Keys, d.contentVersions.Keys)))
  {
    VersionsChangedGrow(db, b);
    ContentsCarry(db, VersionsChanged(db, b));
    hide Obeys, ApplySourceVersions, ApplyContentVersions, ApplyContentObjects, Revisions;
  }

  lemma ClaimsChangedObey(db: Db, b: UpdateBatch)
    requires ClaimsHold(db)
    ensures var d := ClaimsChanged(db, b);
            && Obeys(db.assertions, AssertionRule(db.resources.Keys, db.relationships.Keys, db.sourceVersions.Keys))
            && Obeys(db.provenance, ProvenanceRule(d.assertions.Keys, db.sourceVersions.Keys))
            && Obeys(db.documents, DocumentRule(db.resources.Keys, d.assertions.Keys, db.contentVersions.Keys))
            && (ClaimsHold(d) <==>
                && Obeys(d.assertions, AssertionRule(db.resources.Keys, db.relationships.Keys,
                                                     db.sourceVersions.Keys))
                && Obeys(d.provenance, ProvenanceRule(d.assertions.Keys, db.sourceVersions.Keys))
                && Obeys(d.documents, DocumentRule(db.resources.Keys, d.assertions.Keys, db.contentVersions.Keys)))
  {
    ClaimsChangedGrow(db, b);
    ClaimsCarry(db, ClaimsChanged(db, b));
    hide Obeys, ApplyAssertions, ApplyProvenance, Reindex, Revisions, EmbeddingsRefer;
  }

  lemma ClaimsChangedKeepSchema(db: Db, b: UpdateBatch)
    requires SchemaHolds(db) && ClaimsHold(ClaimsChanged(db, b))
    ensures SchemaHolds(ClaimsChanged(db, b))
  {
    ClaimsChangedGrow(db, b);
    hide ApplyAssertions, ApplyProvenance, Reindex, Revisions, ContentsHold, ClaimsHold, IdentitiesHold, Grows;
    OtherGroupsKeep(db, ClaimsChanged(db, b));
  }

  lemma VersionsKeepSchema(db: Db, b: UpdateBatch)
    requires SchemaHolds(db) && ContentsHold(VersionsChanged(db, b))
    ensures SchemaHolds(VersionsChanged(db, b)) && VersionsStored(VersionsChanged(db, b).sourceVersions.Keys, b)
  {
    VersionsChangedGrow(db, b);
    NewVersionsStored(db.sourceVersions, b);
    hide ApplySourceVersions, ApplyContentVersions, ApplyContentObjects, Revisions, ContentsHold, ClaimsHold,
      IdentitiesHold, VersionsStored;
    OtherGroupsKeep(db, VersionsChanged(db, b));
  }

  /** A batch leaves what its three groups of statements leave, and its keys hold if and only if they hold after
      each. */
  lemma BatchInSteps(db: Db, b: UpdateBatch)
    ensures Apply(db, b) == IdentitiesChanged(ClaimsChanged(ContentsChanged(db, b), b), b)
    ensures SchemaHolds(Apply(db, b)) <==>
            && ContentsHold(ContentsChanged(db, b)) && ClaimsHold(ClaimsChanged(ContentsChanged(db, b), b))
            && IdentitiesHold(IdentitiesChanged(ClaimsChanged(ContentsChanged(db, b), b), b))
  {
    hide ApplySourceObjects, ApplyResources, Deactivate, RetireEmbeddings, ApplySourceVersions, ApplyContentVersions,
      ApplyContentObjects, ApplyAssertions, ApplyProvenance, Reindex, ApplyCandidates, ApplyIdentityKeys,
      ApplySyncRuns, Revisions, Obeys, EmbeddingsRefer, CursorRows;
    assert ApplySources(db.sources, b).Keys == db.sources.Keys;
  }

  // ---- Moving candidates to new versions

  /** Every row moves candidates of the record whose version it cites, to a version that is stored. */
  ghost predicate MovesOwn(rows: seq<Row<Id>>, sourceVersions: set<Id>) {
    forall i, k :: 0 <= i < |rows| && k in rows[i].keys ==>
                     && rows[i].val in sourceVersions && rows[i].val.SourceVersionId?
                     && k.CandidateId? && rows[i].val.record == k.record
  }

  ghost predicate VersionsStored(sourceVersions: set<Id>, b: UpdateBatch) {
    forall r | r in Revisions(b.records) :: SourceVersionId(r.id, Latest(r).version) in sourceVersions
  }

  lemma NewVersionsStored(t: Table<SourceVersion>, b: UpdateBatch)
    ensures VersionsStored(ApplySourceVersions(t, Revisions(b.records)).Keys, b)
  {
    hide Flat;
    var revisions := Revisions(b.records);
    var rows := Flat(revisions, NewSourceVersionRows);
    KeysOfRows(rows);
    forall r | r in revisions
      ensures SourceVersionId(r.id, Latest(r).version) in Keys(rows)
    {
      var i :| 0 <= i < |revisions| && revisions[i] == r;
      var row := SourceVersionRow(r, Latest(r));
      FlatHas(revisions, NewSourceVersionRows, i, row);
      var j :| 0 <= j < |rows| && rows[j] == row;
      assert SourceVersionId(r.id, Latest(r).version) in rows[j].keys;
    }
  }

  lemma PatchesMoveOwn(b: UpdateBatch, sourceVersions: set<Id>)
    requires VersionsStored(sourceVersions, b)
    ensures MovesOwn(Flat(Revisions(b.records), CandidatePatchRows), sourceVersions)
  {
    hide Flat;
    var revisions := Revisions(b.records);
    var rows := Flat(revisions, CandidatePatchRows);
    forall i, k | 0 <= i < |rows| && k in rows[i].keys
      ensures rows[i].val in sourceVersions && rows[i].val.SourceVersionId? && k.CandidateId?
              && rows[i].val.record == k.record
    {
      var j := FlatFrom(revisions, CandidatePatchRows, rows[i]);
      assert revisions[j] in revisions;
    }
  }

  /** Whatever candidates have been moved, no two of them are the same: each cites a version of its own record. */
  lemma MovedObey(t: Table<Candidate>, rows: seq<Row<Id>>, resources: set<Id>, sourceVersions: set<Id>)
    requires CandidatesMatch(t) && Obeys(t, CandidateRule(resources, sourceVersions)) && MovesOwn(rows, sourceVersions)
    ensures var u := Updated(t, rows, UPDATE_CANDIDATES.join, UPDATE_CANDIDATES.assign);
            CandidatesMatch(u) && Obeys(u, CandidateRule(resources, sourceVersions))
  {
    hide Find;
    var rule := CandidateRule(resources, sourceVersions);
    var u := Updated(t, rows, UPDATE_CANDIDATES.join, UPDATE_CANDIDATES.assign);
    forall k | k in u
      ensures CandidateMatches(k, u[k]) && rule.refers(k, u[k])
    {
      FindMember(rows, k);
    }
    forall j, k | j in u && k in u && rule.uniqueKey(j, u[j]) == rule.uniqueKey(k, u[k])
      ensures j == k
    {
      assert CandidateMatches(j, u[j]) && CandidateMatches(k, u[k]);
    }
  }

  lemma {:induction false} MovesAreStored(t: Table<Candidate>, rows: seq<Row<Id>>, resources: set<Id>,
                                          sourceVersions: set<Id>)
    requires CandidatesMatch(t) && Obeys(t, CandidateRule(resources, sourceVersions)) && MovesOwn(rows, sourceVersions)
    ensures ExecAll(UPDATE_CANDIDATES, CandidateRule(resources, sourceVersions), t, Slices(rows)).Some?
    decreases |rows|
  {
    hide CandidatesMatch, Obeys, CandidateRule, Updated;
    if rows != [] {
      var slices := Slices(rows);
      var rest := if |rows| > BATCH_SIZE then rows[BATCH_SIZE..] else [];
      assert slices[0] == rows[..Min(|rows|, BATCH_SIZE)] && slices[1..] == Slices(rest);
      assert MovesOwn(slices[0], sourceVersions);
      forall i, k | 0 <= i < |rest| && k in rest[i].keys
        ensures rest[i].val in sourceVersions && rest[i].val.SourceVersionId? && k.CandidateId?
                && rest[i].val.record == k.record
      {
        assert rest[i] == rows[BATCH_SIZE + i];
      }
      MovedObey(t, slices[0], resources, sourceVersions);
      MovesAreStored(Updated(t, slices[0], UPDATE_CANDIDATES.join, UPDATE_CANDIDATES.assign), rest, resources,
                     sourceVersions);
    }
  }
}
