/** The tables of the benchmark workspace, the rows written to them, and what ingesting a corpus
    and applying an update batch do to them, statement by statement. */
module ScaleTables {
  import opened Prelude
  import opened Corpus
  import opened Statements
  import opened RecordRows
  import opened JsMap
  import opened Text
  import Chunking

  datatype Status = ActiveStatus | DeletedStatus
  datatype SemanticType = ClientType | ProjectType | HypothesisType | EvidenceType | DocumentType

  /** The JSON properties of a resource; a key that is absent is `None`. */
  datatype Properties = Properties(
    benchmarkRecordId: Option<Id>, deleted: Option<bool>, sourceSystem: Option<SourceSystem>, parent: Option<Id>)

  datatype Resource = Resource(
    semanticType: SemanticType, scope: Visibility, name: string, summary: string, properties: Properties,
    status: Status)
  datatype EntityAlias = EntityAlias(resourceId: Id, alias: string, normalized: string)
  datatype ContentObject = ContentObject(currentVersionId: Option<Id>)
  datatype SourceObject = SourceObject(
    sourceId: Id, scope: Visibility, external: External, createdAt: int, updatedAt: int, hash: Id, deleted: bool)
  datatype SourceVersion = SourceVersion(
    sourceObjectId: Id, scope: Visibility, hash: Id, payload: Version, system: SourceSystem, external: External,
    updatedAt: int)
  datatype ContentVersion = ContentVersion(
    contentId: Id, sourceVersionId: Id, scope: Visibility, body: string, hash: Id, version: int, isCurrent: bool)
  datatype Relationship = Relationship(fromId: Id, toId: Id, stance: Stance)
  datatype Process = SemanticMapper | IncrementalMapper
  datatype Assertion = Assertion(
    scope: Visibility, subject: Id, stance: Stance, target: Id, relationshipId: Id, sourceVersionId: Id,
    process: Process, validFrom: int, validTo: Option<int>)
  datatype Provenance = Provenance(assertionId: Id, sourceVersionId: Id, endOffset: nat, excerpt: string)
  datatype Document = Document(
    scope: Visibility, resourceId: Id, assertionId: Id, contentVersionId: Id, body: string,
    chunkIndex: int, chunkStart: nat, chunkEnd: nat, updatedAt: int, active: bool)
  datatype Embedding = Embedding(documentId: Id, isCurrent: bool)
  datatype Candidate = Candidate(
    system: SourceSystem, keyType: KeyType, externalKey: string, resourceId: Id, sourceVersionId: Id, ambiguous: bool)
  datatype IdentityKey = IdentityKey(
    resourceId: Id, system: SourceSystem, keyType: KeyType, externalKey: string, sourceVersionId: Id)
  datatype Cursor = Initial(seed: int) | Incremental(seed: int, size: nat)
  datatype Source = Source(system: SourceSystem, cursor: Cursor)
  datatype SyncRun = SyncRun(sourceId: Id, before: Option<Cursor>, after: Cursor, seen: nat, changed: nat)

  datatype Db = Db(
    sources: Table<Source>,
    resources: Table<Resource>,
    entities: Table<string>,
    contentObjects: Table<ContentObject>,
    entityAliases: Table<EntityAlias>,
    sourceObjects: Table<SourceObject>,
    sourceVersions: Table<SourceVersion>,
    contentVersions: Table<ContentVersion>,
    relationships: Table<Relationship>,
    assertions: Table<Assertion>,
    provenance: Table<Provenance>,
    documents: Table<Document>,
    embeddings: map<nat, Embedding>,
    candidates: Table<Candidate>,
    identityKeys: Table<IdentityKey>,
    syncRuns: Table<SyncRun>)

  const EMPTY_DB := Db(map[], map[], map[], map[], map[], map[], map[], map[], map[], map[], map[], map[], map[], map[],
                       map[], map[])

  // ---- Rows built from one record

  function StatusOf(deleted: bool): Status { if deleted then DeletedStatus else ActiveStatus }

  function Evidence(r: Record): Resource {
    Resource(EvidenceType, r.visibility, Latest(r).title, Latest(r).body,
             Properties(Some(r.id), Some(r.deleted), None, None), StatusOf(r.deleted))
  }

  function Content(r: Record): Resource {
    Resource(DocumentType, r.visibility, Latest(r).title, Latest(r).body,
             Properties(Some(r.id), None, Some(r.sourceSystem), None), StatusOf(r.deleted))
  }

  function EvidenceRows(r: Record): seq<Row<Resource>> { [Row({EvidenceResource(r.id)}, Evidence(r))] }
  function ContentRows(r: Record): seq<Row<Resource>> { [Row({ContentResource(r.id)}, Content(r))] }

  function ContentObjectRows(r: Record): seq<Row<ContentObject>> { [Row({ContentResource(r.id)}, ContentObject(None))] }
  function PointerRows(r: Record): seq<Row<Id>> {
    [Row({ContentResource(r.id)}, ContentVersionId(r.id, Latest(r).version))]
  }

  function SourceObjectRows(r: Record): seq<Row<SourceObject>> {
    [Row({SourceObjectId(r.id)},
         SourceObject(SourceId(r.sourceSystem), r.visibility, r.external, First(r).updatedAt, Latest(r).updatedAt,
                      Latest(r).contentHashKey, r.deleted))]
  }

  function SourceVersionRow(r: Record, v: Version): Row<SourceVersion> {
    Row({SourceVersionId(r.id, v.version)},
        SourceVersion(SourceObjectId(r.id), r.visibility, v.contentHashKey, v, r.sourceSystem, r.external, v.updatedAt))
  }

  function ContentVersionRow(r: Record, v: Version, current: bool): Row<ContentVersion> {
    Row({ContentVersionId(r.id, v.version)},
        ContentVersion(ContentResource(r.id), SourceVersionId(r.id, v.version), r.visibility, v.body, v.contentHashKey,
                       v.version, current))
  }

  function SourceVersionRows(r: Record): seq<Row<SourceVersion>> {
    Map(r.versions, (v: Version) => SourceVersionRow(r, v))
  }

  function ContentVersionRows(r: Record): seq<Row<ContentVersion>> {
    Map(r.versions, (v: Version) => ContentVersionRow(r, v, v.version == |r.versions|))
  }

  function RelationshipOf(r: Record, stance: Stance): Id {
    RelationshipId(EvidenceResource(r.id), stance, HypothesisResource(r.canonicalProjectId))
  }

  function RelationshipRows(r: Record): seq<Row<Relationship>> {
    [Row({RelationshipOf(r, Latest(r).stance)},
         Relationship(EvidenceResource(r.id), HypothesisResource(r.canonicalProjectId), Latest(r).stance))]
  }

  function AssertionFor(r: Record, v: Version, process: Process): Assertion {
    Assertion(r.visibility, EvidenceResource(r.id), v.stance, HypothesisResource(r.canonicalProjectId),
              RelationshipOf(r, v.stance), SourceVersionId(r.id, v.version), process, v.updatedAt, None)
  }

  function AssertionRows(r: Record): seq<Row<Assertion>> {
    [Row({AssertionId(r.id)}, AssertionFor(r, Latest(r), SemanticMapper))]
  }

  function ProvenanceFor(r: Record, v: Version, assertionId: Id): Provenance {
    Provenance(assertionId, SourceVersionId(r.id, v.version), |v.body|, v.body)
  }

  function ProvenanceRows(r: Record): seq<Row<Provenance>> {
    [Row({ProvenanceId(r.id)}, ProvenanceFor(r, Latest(r), AssertionId(r.id)))]
  }

  function DocumentFor(r: Record, v: Version, assertionId: Id, chunk: Chunking.TextChunk, active: bool): Document {
    Document(r.visibility, EvidenceResource(r.id), assertionId, ContentVersionId(r.id, v.version),
             v.title + ". Client: " + r.canonicalClientName + ". Project: " + r.canonicalProjectName + ". "
             + chunk.text + " " + r.sourceClientReference + " " + r.sourceProjectReference,
             chunk.index, chunk.startOffset, chunk.endOffset, v.updatedAt, active)
  }

  function DocumentRows(r: Record): seq<Row<Document>> {
    Map(Chunking.Chunks(Latest(r).body), (c: Chunking.TextChunk) =>
          Row({DocumentId(r.id, c.index)}, DocumentFor(r, Latest(r), AssertionId(r.id), c, !r.deleted)))
  }

  function CandidateFor(r: Record, keyType: KeyType): Candidate {
    match keyType
    case ClientRef =>
      Candidate(r.sourceSystem, keyType, r.sourceClientReference, r.canonicalClientId,
                SourceVersionId(r.id, Latest(r).version), r.ambiguousAlias)
    case ProjectRef =>
      Candidate(r.sourceSystem, keyType, r.sourceProjectReference, r.canonicalProjectId,
                SourceVersionId(r.id, Latest(r).version), r.ambiguousAlias)
  }

  function CandidateRow(r: Record, keyType: KeyType): Row<Candidate> {
    Row({CandidateId(r.id, keyType, CandidateFor(r, keyType).resourceId)}, CandidateFor(r, keyType))
  }

  function CandidateRows(r: Record): seq<Row<Candidate>> {
    [CandidateRow(r, ClientRef), CandidateRow(r, ProjectRef)]
  }

  // ---- Rows shared between records: the last record with a client or project decides

  function ClientPair(r: Record): (Id, string) { (r.canonicalClientId, r.canonicalClientName) }

  function ProjectPair(r: Record): (Id, (string, Id)) {
    (r.canonicalProjectId, (r.canonicalProjectName, r.canonicalClientId))
  }

  function ClientMap(rs: seq<Record>): Entries<Id, string> {
    FromPairs(Map(rs, ClientPair))
  }

  function ProjectMap(rs: seq<Record>): Entries<Id, (string, Id)> {
    FromPairs(Map(rs, ProjectPair))
  }

  const NO_PROPERTIES := Properties(None, None, None, None)

  function ClientRow(e: (Id, string)): Row<Resource> {
    Row({e.0}, Resource(ClientType, Everyone, e.1, "Synthetic benchmark client " + e.1 + ".", NO_PROPERTIES,
                        ActiveStatus))
  }

  function ProjectRow(e: (Id, (string, Id))): Row<Resource> {
    Row({e.0}, Resource(ProjectType, Everyone, e.1.0, "Synthetic benchmark project " + e.1.0 + ".",
                        NO_PROPERTIES.(parent := Some(e.1.1)), ActiveStatus))
  }

  function HypothesisRow(e: (Id, (string, Id))): Row<Resource> {
    Row({HypothesisResource(e.0)},
        Resource(HypothesisType, Everyone, "Completion barriers for " + e.1.0,
                 "Which issues prevent completion of " + e.1.0 + "?",
                 NO_PROPERTIES.(parent := Some(e.0)), ActiveStatus))
  }

  function SharedRows(rs: seq<Record>): seq<Row<Resource>> {
    Map(ClientMap(rs), ClientRow) + Map(ProjectMap(rs), ProjectRow) + Map(ProjectMap(rs), HypothesisRow)
  }

  function EntityNameRow(row: Row<Resource>): Row<string> { Row(row.keys, Normalize(row.val.name, ' ')) }

  /** The row under which a client can be found by its name. */
  function AliasRow(e: (Id, string)): Row<EntityAlias> {
    Row({AliasId(e.0)}, EntityAlias(e.0, e.1, Normalize(e.1, ' ')))
  }

  /** Candidates of one record that are promoted to identity keys. */
  function PromotedPairs(r: Record): seq<(Id, Candidate)> {
    if r.ambiguousAlias then []
    else [ (IdentityKeyId(r.sourceSystem, ClientRef, r.sourceClientReference), CandidateFor(r, ClientRef)),
           (IdentityKeyId(r.sourceSystem, ProjectRef, r.sourceProjectReference), CandidateFor(r, ProjectRef)) ]
  }

  function PromotedKeys(rs: seq<Record>): Entries<Id, Candidate> {
    FromPairs(Flat(rs, PromotedPairs))
  }

  function IdentityKeyRow(e: (Id, Candidate)): Row<IdentityKey> {
    Row({e.0}, IdentityKey(e.1.resourceId, e.1.system, e.1.keyType, e.1.externalKey, e.1.sourceVersionId))
  }

  function CountFrom(rs: seq<Record>, system: SourceSystem): nat {
    |Filter(rs, (r: Record) => r.sourceSystem == system)|
  }

  function SourceRow(seed: int, system: SourceSystem): Row<Source> {
    Row({SourceId(system)}, Source(system, Initial(seed)))
  }

  function SyncRunRow(c: ScaleCorpus, system: SourceSystem): Row<SyncRun> {
    Row({SyncRunId(c.seed, system)},
        SyncRun(SourceId(system), None, Initial(c.seed), CountFrom(c.records, system), CountFrom(c.records, system)))
  }

  // ---- The statements

  function Same<T>(t: T): T { t }

  function Inserting<T>(): Statement<T, T> { Insert(Same) }

  const SET_CURRENT_VERSION: Statement<ContentObject, Id> :=
    Update((k, t) => k, (t: ContentObject, v: Id) => t.(currentVersionId := Some(v)))

  datatype SourceObjectPatch = SourceObjectPatch(hash: Id, updatedAt: int, deleted: bool)
  const UPDATE_SOURCE_OBJECTS: Statement<SourceObject, SourceObjectPatch> :=
    Update((k, t) => k, (t: SourceObject, p: SourceObjectPatch) =>
             t.(hash := p.hash, updatedAt := p.updatedAt, deleted := p.deleted))

  datatype ResourcePatch = ResourcePatch(title: string, body: string, deleted: bool)
  const UPDATE_RESOURCES: Statement<Resource, ResourcePatch> :=
    Update((k, t) => k, (t: Resource, p: ResourcePatch) =>
             t.(name := p.title, summary := p.body, status := StatusOf(p.deleted),
             properties := t.properties.(deleted := Some(p.deleted))))

  const DEACTIVATE_DOCUMENTS: Statement<Document, ()> :=
    Update((k, t: Document) => t.resourceId, (t: Document, p: ()) => t.(active := false))

  const ADD_SOURCE_VERSIONS: Statement<SourceVersion, SourceVersion> :=
    InsertOrIgnore(Same)

  const RETIRE_CONTENT_VERSIONS: Statement<ContentVersion, ()> :=
    Update((k, t: ContentVersion) => t.contentId, (t: ContentVersion, p: ()) => t.(isCurrent := false))

  const ADD_CONTENT_VERSIONS: Statement<ContentVersion, ContentVersion> :=
    InsertOrUpdate(Same, (stored: ContentVersion, offered: ContentVersion) => stored.(isCurrent := true))

  datatype ClosePatch = ClosePatch(sourceVersionId: Id, validTo: int)
  const CLOSE_ASSERTIONS: Statement<Assertion, ClosePatch> :=
    Update((k, t: Assertion) => t.subject, (t: Assertion, p: ClosePatch) =>
             if t.validTo == None && t.sourceVersionId != p.sourceVersionId then t.(validTo := Some(p.validTo)) else t)

  const ADD_ASSERTIONS: Statement<Assertion, Assertion> :=
    InsertOrUpdate(Same, (stored: Assertion, offered: Assertion) => stored.(validTo := None))

  const ADD_PROVENANCE: Statement<Provenance, Provenance> :=
    InsertOrIgnore(Same)

  const ADD_DOCUMENTS: Statement<Document, Document> :=
    InsertOrUpdate(Same, (stored: Document, offered: Document) =>
                     stored.(body := offered.body, active := true, updatedAt := offered.updatedAt))

  const UPDATE_CANDIDATES: Statement<Candidate, Id> :=
    Update((k, t) => k, (t: Candidate, v: Id) => t.(sourceVersionId := v))

  const UPDATE_IDENTITY_KEYS: Statement<IdentityKey, Id> :=
    Update((k, t) => k, (t: IdentityKey, v: Id) => t.(sourceVersionId := v))

  const ADVANCE_SOURCES: Statement<Source, Cursor> :=
    Update((k, t) => k, (t: Source, p: Cursor) => t.(cursor := p))

  const ADD_SYNC_RUNS: Statement<SyncRun, SyncRun> :=
    InsertOrUpdate(Same, (stored: SyncRun, offered: SyncRun) =>
                     stored.(after := offered.after, seen := offered.seen, changed := offered.changed))

  // ---- Rows of an update batch

  function Revisions(rs: seq<Record>): seq<Record> {
    Filter(rs, IsLive)
  }

  function SourceObjectPatchRows(r: Record): seq<Row<SourceObjectPatch>> {
    [Row({SourceObjectId(r.id)}, SourceObjectPatch(Latest(r).contentHashKey, Latest(r).updatedAt, r.deleted))]
  }

  function ResourcePatchRows(r: Record): seq<Row<ResourcePatch>> {
    [Row({EvidenceResource(r.id), ContentResource(r.id)}, ResourcePatch(Latest(r).title, Latest(r).body, r.deleted))]
  }

  function EvidenceKeyRows(r: Record): seq<Row<()>> { [Row({EvidenceResource(r.id)}, ())] }
  function ContentKeyRows(r: Record): seq<Row<()>> { [Row({ContentResource(r.id)}, ())] }
  function NewSourceVersionRows(r: Record): seq<Row<SourceVersion>> { [SourceVersionRow(r, Latest(r))] }
  function NewContentVersionRows(r: Record): seq<Row<ContentVersion>> { [ContentVersionRow(r, Latest(r), true)] }

  function CloseRows(r: Record): seq<Row<ClosePatch>> {
    [Row({EvidenceResource(r.id)}, ClosePatch(SourceVersionId(r.id, Latest(r).version), Latest(r).updatedAt))]
  }

  function NewAssertionRows(r: Record): seq<Row<Assertion>> {
    [Row({AssertionUpdateId(r.id, Latest(r).version)}, AssertionFor(r, Latest(r), IncrementalMapper))]
  }

  function NewProvenanceRows(r: Record): seq<Row<Provenance>> {
    [Row({ProvenanceUpdateId(r.id, Latest(r).version)},
         ProvenanceFor(r, Latest(r), AssertionUpdateId(r.id, Latest(r).version)))]
  }

  function NewDocumentRows(r: Record): seq<Row<Document>> {
    Map(Chunking.Chunks(Latest(r).body), (c: Chunking.TextChunk) =>
          Row({DocumentUpdateId(r.id, Latest(r).version, c.index)},
              DocumentFor(r, Latest(r), AssertionUpdateId(r.id, Latest(r).version), c, true)))
  }

  function CandidatePatchRows(r: Record): seq<Row<Id>> {
    [ Row({CandidateId(r.id, ClientRef, r.canonicalClientId)}, SourceVersionId(r.id, Latest(r).version)),
      Row({CandidateId(r.id, ProjectRef, r.canonicalProjectId)}, SourceVersionId(r.id, Latest(r).version)) ]
  }

  function IdentityKeyPatches(revisions: seq<Record>): Entries<Id, Candidate> {
    FromPairs(Flat(revisions, PromotedPairs))
  }

  function IdentityKeyPatchRow(e: (Id, Candidate)): Row<Id> { Row({e.0}, e.1.sourceVersionId) }

  function CursorRow(b: UpdateBatch, system: SourceSystem): Row<Cursor> {
    Row({SourceId(system)}, Incremental(b.corpus.seed, |b.records|))
  }

  function NewSyncRunRow(b: UpdateBatch, system: SourceSystem): Row<SyncRun> {
    Row({SyncRunUpdateId(b.corpus.seed, system, |b.records|)},
        SyncRun(SourceId(system), Some(Initial(b.corpus.seed)), Incremental(b.corpus.seed, |b.records|),
                CountFrom(b.records, system), CountFrom(b.records, system)))
  }

  /** UPDATE search_embeddings .. FROM search_documents: embeddings of inactive documents stop being current. */
  function RetireEmbeddings(embeddings: map<nat, Embedding>, documents: Table<Document>): map<nat, Embedding> {
    map k | k in embeddings ::
      var e := embeddings[k];
      if e.documentId in documents && !documents[e.documentId].active then e.(isCurrent := false) else e
  }

  // ---- What the two write paths leave in each table

  function Inserted<T>(t: Table<T>, rows: seq<Row<T>>): Table<T> {
    Written(t, rows, Same, Keep)
  }

  predicate Fits<T>(t: Table<T>, rows: seq<Row<T>>) {
    Keys(rows) !! t.Keys
  }

  function SourceRows(seed: int): seq<Row<Source>> { Map(SOURCE_SYSTEMS, s => SourceRow(seed, s)) }
  function EntityRows(rs: seq<Record>): seq<Row<Resource>> { SharedRows(rs) + Flat(rs, EvidenceRows) }
  function ResourceRows(rs: seq<Record>): seq<Row<Resource>> { EntityRows(rs) + Flat(rs, ContentRows) }
  function EntityNameRows(rs: seq<Record>): seq<Row<string>> { Map(EntityRows(rs), EntityNameRow) }
  function AliasRows(rs: seq<Record>): seq<Row<EntityAlias>> { Map(ClientMap(rs), AliasRow) }
  function IdentityKeyRows(rs: seq<Record>): seq<Row<IdentityKey>> { Map(PromotedKeys(rs), IdentityKeyRow) }
  function SyncRunRows(c: ScaleCorpus): seq<Row<SyncRun>> { Map(SOURCE_SYSTEMS, s => SyncRunRow(c, s)) }

  predicate ResourcesFit(sources: Table<Source>, resources: Table<Resource>, entities: Table<string>,
                         contentObjects: Table<ContentObject>, entityAliases: Table<EntityAlias>, c: ScaleCorpus) {
    && Fits(sources, SourceRows(c.seed)) && Fits(resources, ResourceRows(c.records))
    && Fits(entities, EntityNameRows(c.records)) && Fits(contentObjects, Flat(c.records, ContentObjectRows))
    && Fits(entityAliases, AliasRows(c.records))
  }

  predicate VersionsFit(sourceObjects: Table<SourceObject>, sourceVersions: Table<SourceVersion>,
                        contentVersions: Table<ContentVersion>, c: ScaleCorpus) {
    && Fits(sourceObjects, Flat(c.records, SourceObjectRows))
    && Fits(sourceVersions, Flat(c.records, SourceVersionRows))
    && Fits(contentVersions, Flat(c.records, ContentVersionRows))
  }

  predicate ClaimsFit(relationships: Table<Relationship>, assertions: Table<Assertion>, provenance: Table<Provenance>,
                      documents: Table<Document>, c: ScaleCorpus) {
    && Fits(relationships, Flat(c.records, RelationshipRows)) && Fits(assertions, Flat(c.records, AssertionRows))
    && Fits(provenance, Flat(c.records, ProvenanceRows)) && Fits(documents, Flat(c.records, DocumentRows))
  }

  predicate IdentitiesFit(candidates: Table<Candidate>, identityKeys: Table<IdentityKey>, syncRuns: Table<SyncRun>,
                          c: ScaleCorpus) {
    Fits(candidates, Flat(c.records, CandidateRows)) && Fits(identityKeys, IdentityKeyRows(c.records))
    && Fits(syncRuns, SyncRunRows(c))
  }

  /** No statement of an ingest meets a key that is already taken. */
  predicate IngestFits(db: Db, c: ScaleCorpus) {
    && ResourcesFit(db.sources, db.resources, db.entities, db.contentObjects, db.entityAliases, c)
    && VersionsFit(db.sourceObjects, db.sourceVersions, db.contentVersions, c)
    && ClaimsFit(db.relationships, db.assertions, db.provenance, db.documents, c)
    && IdentitiesFit(db.candidates, db.identityKeys, db.syncRuns, c)
  }

  /** `ingestScaleCorpus` when it commits. */
  function Ingest(db: Db, c: ScaleCorpus): Db {
    Db(Inserted(db.sources, SourceRows(c.seed)),
       Inserted(db.resources, ResourceRows(c.records)),
       Inserted(db.entities, EntityNameRows(c.records)),
       ApplyContentObjects(Inserted(db.contentObjects, Flat(c.records, ContentObjectRows)), c.records),
       Inserted(db.entityAliases, AliasRows(c.records)),
       Inserted(db.sourceObjects, Flat(c.records, SourceObjectRows)),
       Inserted(db.sourceVersions, Flat(c.records, SourceVersionRows)),
       Inserted(db.contentVersions, Flat(c.records, ContentVersionRows)),
       Inserted(db.relationships, Flat(c.records, RelationshipRows)),
       Inserted(db.assertions, Flat(c.records, AssertionRows)),
       Inserted(db.provenance, Flat(c.records, ProvenanceRows)),
       Inserted(db.documents, Flat(c.records, DocumentRows)),
       db.embeddings,
       Inserted(db.candidates, Flat(c.records, CandidateRows)),
       Inserted(db.identityKeys, IdentityKeyRows(c.records)),
       Inserted(db.syncRuns, SyncRunRows(c)))
  }

  function ApplySourceObjects(t: Table<SourceObject>, rs: seq<Record>): Table<SourceObject> {
    Updated(t, Flat(rs, SourceObjectPatchRows), UPDATE_SOURCE_OBJECTS.join, UPDATE_SOURCE_OBJECTS.assign)
  }

  function ApplyResources(t: Table<Resource>, rs: seq<Record>): Table<Resource> {
    Updated(t, Flat(rs, ResourcePatchRows), UPDATE_RESOURCES.join, UPDATE_RESOURCES.assign)
  }

  function Deactivate(t: Table<Document>, rs: seq<Record>): Table<Document> {
    Updated(t, Flat(rs, EvidenceKeyRows), DEACTIVATE_DOCUMENTS.join, DEACTIVATE_DOCUMENTS.assign)
  }

  function ApplySourceVersions(t: Table<SourceVersion>, revisions: seq<Record>): Table<SourceVersion> {
    Inserted(t, Flat(revisions, NewSourceVersionRows))
  }

  function RetireContentVersions(t: Table<ContentVersion>, revisions: seq<Record>): Table<ContentVersion> {
    Updated(t, Flat(revisions, ContentKeyRows), RETIRE_CONTENT_VERSIONS.join, RETIRE_CONTENT_VERSIONS.assign)
  }

  function ApplyContentVersions(t: Table<ContentVersion>, revisions: seq<Record>): Table<ContentVersion> {
    Written(RetireContentVersions(t, revisions), Flat(revisions, NewContentVersionRows), ADD_CONTENT_VERSIONS.make,
            ADD_CONTENT_VERSIONS.onConflict)
  }

  function ApplyContentObjects(t: Table<ContentObject>, revisions: seq<Record>): Table<ContentObject> {
    Updated(t, Flat(revisions, PointerRows), SET_CURRENT_VERSION.join, SET_CURRENT_VERSION.assign)
  }

  function CloseAssertions(t: Table<Assertion>, revisions: seq<Record>): Table<Assertion> {
    Updated(t, Flat(revisions, CloseRows), CLOSE_ASSERTIONS.join, CLOSE_ASSERTIONS.assign)
  }

  function ApplyAssertions(t: Table<Assertion>, revisions: seq<Record>): Table<Assertion> {
    Written(CloseAssertions(t, revisions), Flat(revisions, NewAssertionRows), ADD_ASSERTIONS.make,
            ADD_ASSERTIONS.onConflict)
  }

  function ApplyProvenance(t: Table<Provenance>, revisions: seq<Record>): Table<Provenance> {
    Inserted(t, Flat(revisions, NewProvenanceRows))
  }

  function Reindex(t: Table<Document>, revisions: seq<Record>): Table<Document> {
    Written(t, Flat(revisions, NewDocumentRows), ADD_DOCUMENTS.make, ADD_DOCUMENTS.onConflict)
  }

  function ApplyCandidates(t: Table<Candidate>, revisions: seq<Record>): Table<Candidate> {
    Updated(t, Flat(revisions, CandidatePatchRows), UPDATE_CANDIDATES.join, UPDATE_CANDIDATES.assign)
  }

  function IdentityKeyPatchRows(revisions: seq<Record>): seq<Row<Id>> {
    Map(IdentityKeyPatches(revisions), IdentityKeyPatchRow)
  }

  function ApplyIdentityKeys(t: Table<IdentityKey>, revisions: seq<Record>): Table<IdentityKey> {
    Updated(t, IdentityKeyPatchRows(revisions), UPDATE_IDENTITY_KEYS.join, UPDATE_IDENTITY_KEYS.assign)
  }

  function CursorRows(b: UpdateBatch): seq<Row<Cursor>> { Map(SOURCE_SYSTEMS, s => CursorRow(b, s)) }
  function NewSyncRunRows(b: UpdateBatch): seq<Row<SyncRun>> { Map(SOURCE_SYSTEMS, s => NewSyncRunRow(b, s)) }

  function ApplySources(t: Table<Source>, b: UpdateBatch): Table<Source> {
    Updated(t, CursorRows(b), ADVANCE_SOURCES.join, ADVANCE_SOURCES.assign)
  }

  function ApplySyncRuns(t: Table<SyncRun>, b: UpdateBatch): Table<SyncRun> {
    Written(t, NewSyncRunRows(b), ADD_SYNC_RUNS.make, ADD_SYNC_RUNS.onConflict)
  }

  /** `applyScaleUpdateBatch` */
  function Apply(db: Db, b: UpdateBatch): Db {
    var revisions := Revisions(b.records);
    Db(ApplySources(db.sources, b),
       ApplyResources(db.resources, b.records),
       db.entities,
       ApplyContentObjects(db.contentObjects, revisions),
       db.entityAliases,
       ApplySourceObjects(db.sourceObjects, b.records),
       ApplySourceVersions(db.sourceVersions, revisions),
       ApplyContentVersions(db.contentVersions, revisions),
       db.relationships,
       ApplyAssertions(db.assertions, revisions),
       ApplyProvenance(db.provenance, revisions),
       Reindex(Deactivate(db.documents, b.records), revisions),
       RetireEmbeddings(db.embeddings, Deactivate(db.documents, b.records)),
       ApplyCandidates(db.candidates, revisions),
       ApplyIdentityKeys(db.identityKeys, revisions),
       ApplySyncRuns(db.syncRuns, b))
  }
}
