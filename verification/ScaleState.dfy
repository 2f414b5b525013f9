/** What every table holds, as a function of the records: the state after an ingest and any run of
    update batches is described row by row from the current records and a little history. */
module ScaleState {
  import opened Prelude
  import opened Corpus
  import opened Statements
  import opened RecordRows
  import opened JsMap
  import opened ScaleTables
  import Chunking

  /** A record as it now is, how many versions it had when it was ingested, and whether a batch has changed it since. */
  datatype Entry = Entry(record: Record, base: nat, touched: bool)

  type EntryMap = map<Id, Entry>

  ghost predicate WellFormedEntry(k: Id, e: Entry) {
    && WellFormedRecord(e.record) && e.record.id == k
    && 1 <= e.base <= |e.record.versions|
    && (!e.touched ==> e.base == |e.record.versions|)
    && (forall v :: e.base <= v < |e.record.versions| ==>
                      e.record.versions[v].stance == e.record.versions[v - 1].stance
                      && e.record.versions[v - 1].updatedAt < e.record.versions[v].updatedAt)
  }

  ghost predicate WellFormedEntries(m: EntryMap) {
    forall k :: k in m ==> WellFormedEntry(k, m[k])
  }

  /** The entries of a corpus that was just ingested. */
  function Fresh(rs: seq<Record>): EntryMap {
    map k | k in ById(rs) :: Entry(ById(rs)[k], |ById(rs)[k].versions|, false)
  }

  /** The entries after a batch with the given records. */
  function Stepped(m: EntryMap, bs: seq<Record>): EntryMap {
    map k | k in m :: if k in ById(bs) then Entry(ById(bs)[k], m[k].base, true) else m[k]
  }

  /** A batch record deletes a live record or appends one later version with the same stance. */
  ghost predicate StepOf(r: Record, b: Record) {
    && !r.deleted
    && if b.deleted then b == r.(deleted := true)
       else
         && |b.versions| == |r.versions| + 1
         && b == r.(versions := r.versions + [Latest(b)])
         && Latest(b).version == |b.versions|
         && Latest(b).stance == Latest(r).stance
         && Latest(r).updatedAt < Latest(b).updatedAt
  }

  ghost predicate StepsOf(m: EntryMap, bs: seq<Record>) {
    && DistinctIds(bs)
    && forall i :: 0 <= i < |bs| ==> bs[i].id in m && StepOf(m[bs[i].id].record, bs[i])
  }

  // ---- The row of a record under a key, if it has one

  function VersionAt(r: Record, version: int): Version {
    if 1 <= version <= |r.versions| then r.versions[version - 1] else NO_VERSION
  }

  function SourceObjectOf(e: Entry, k: Id): Option<SourceObject> {
    var r := e.record;
    if k != SourceObjectId(r.id) then None
    else Some(SourceObject(SourceId(r.sourceSystem), r.visibility, r.external,
                           First(r).updatedAt, Latest(r).updatedAt, Latest(r).contentHashKey, r.deleted))
  }

  function ResourceOf(e: Entry, k: Id): Option<Resource> {
    var r := e.record;
    if k == EvidenceResource(r.id) then Some(Evidence(r))
    else if k == ContentResource(r.id) then
      Some(if e.touched then Content(r).(properties := Content(r).properties.(deleted := Some(r.deleted)))
           else Content(r))
    else None
  }

  function SourceVersionOf(e: Entry, k: Id): Option<SourceVersion> {
    if k.SourceVersionId? && 1 <= k.version <= |e.record.versions| && k.record == e.record.id then
      Some(SourceVersionRow(e.record, e.record.versions[k.version - 1]).val)
    else None
  }

  function ContentVersionOf(e: Entry, k: Id): Option<ContentVersion> {
    if k.ContentVersionId? && 1 <= k.version <= |e.record.versions| && k.record == e.record.id then
      Some(ContentVersionRow(e.record, e.record.versions[k.version - 1], k.version == |e.record.versions|).val)
    else None
  }

  function ContentObjectOf(e: Entry, k: Id): Option<ContentObject> {
    if k == ContentResource(e.record.id) then
      Some(ContentObject(Some(ContentVersionId(e.record.id, |e.record.versions|))))
    else None
  }

  function RelationshipFor(e: Entry, k: Id): Option<Relationship> {
    var r := e.record;
    if k == RelationshipOf(r, Latest(r).stance) then
      Some(Relationship(EvidenceResource(r.id), HypothesisResource(r.canonicalProjectId), Latest(r).stance))
    else None
  }

  /** The version an assertion, provenance span or document belongs to: the one it was ingested with, or a later one. */
  function VersionOf(e: Entry, k: Id): int {
    match k
    case AssertionId(_) => e.base
    case ProvenanceId(_) => e.base
    case DocumentId(_, _) => e.base
    case AssertionUpdateId(_, v) => v
    case ProvenanceUpdateId(_, v) => v
    case DocumentUpdateId(_, v, _) => v
    case _ => 0
  }

  predicate LaterVersion(e: Entry, v: int) {
    e.base < v <= |e.record.versions|
  }

  /** An assertion is open while its version is the latest and closes when the next version starts. */
  function AssertionAt(r: Record, v: int, process: Process): Assertion {
    AssertionFor(r, VersionAt(r, v), process).(validTo := if v < |r.versions| then Some(VersionAt(r, v + 1).updatedAt)
    else None)
  }

  function AssertionOf(e: Entry, k: Id): Option<Assertion> {
    var r := e.record;
    if k == AssertionId(r.id) then Some(AssertionAt(r, e.base, SemanticMapper))
    else if k.AssertionUpdateId? && k.record == r.id && LaterVersion(e, k.version) then
      Some(AssertionAt(r, k.version, IncrementalMapper))
    else None
  }

  function ProvenanceOf(e: Entry, k: Id): Option<Provenance> {
    var r := e.record;
    if k == ProvenanceId(r.id) then Some(ProvenanceFor(r, VersionAt(r, e.base), AssertionId(r.id)))
    else if k.ProvenanceUpdateId? && k.record == r.id && LaterVersion(e, k.version) then
      Some(ProvenanceFor(r, VersionAt(r, k.version), AssertionUpdateId(r.id, k.version)))
    else None
  }

  function ChunksAt(r: Record, v: int): seq<Chunking.TextChunk> {
    Chunking.Chunks(VersionAt(r, v).body)
  }

  function DocumentAt(r: Record, v: int, chunk: Chunking.TextChunk, assertionId: Id): Document {
    DocumentFor(r, VersionAt(r, v), assertionId, chunk, v == |r.versions| && !r.deleted)
  }

  function DocumentOf(e: Entry, k: Id): Option<Document> {
    var r := e.record;
    if k.DocumentId? && k.record == r.id && 0 <= k.chunk < |ChunksAt(r, e.base)| then
      Some(DocumentAt(r, e.base, ChunksAt(r, e.base)[k.chunk], AssertionId(r.id)))
    else if k.DocumentUpdateId? && k.record == r.id && LaterVersion(e, k.version)
            && 0 <= k.chunk < |ChunksAt(r, k.version)| then
      Some(DocumentAt(r, k.version, ChunksAt(r, k.version)[k.chunk], AssertionUpdateId(r.id, k.version)))
    else None
  }

  function CandidateOf(e: Entry, k: Id): Option<Candidate> {
    var r := e.record;
    if k == CandidateId(r.id, ClientRef, r.canonicalClientId) then Some(CandidateFor(r, ClientRef))
    else if k == CandidateId(r.id, ProjectRef, r.canonicalProjectId) then Some(CandidateFor(r, ProjectRef))
    else None
  }

  // ---- Tables described by the entries

  /** The table holds exactly the rows its entries give. */
  ghost predicate Holds<T(!new)>(t: Table<T>, m: EntryMap, row: (Entry, Id) -> Option<T>) {
    && (forall k :: k in t <==> Owner(k) in m && row(m[Owner(k)], k).Some?)
    && (forall k :: k in t ==> row(m[Owner(k)], k) == Some(t[k]))
  }

  /** The same for a table that also holds rows shared between records. */
  ghost predicate HoldsBeside<T(!new)>(t: Table<T>, m: EntryMap, row: (Entry, Id) -> Option<T>, shared: seq<Row<T>>) {
    && (forall k :: Owner(k) in m ==> (k in t <==> row(m[Owner(k)], k).Some?))
    && (forall k :: k in t && Owner(k) in m ==> row(m[Owner(k)], k) == Some(t[k]))
    && (forall k :: Owner(k) !in m ==> (k in t <==> Find(shared, k).Some?))
    && (forall k :: k in t && Owner(k) !in m ==> Find(shared, k) == Some(t[k]))
  }

  /** Promoted keys lead to the resource the last record with that key names; which version they cite may be any. */
  ghost predicate HoldsKeys(t: Table<IdentityKey>, m: EntryMap, rs: seq<Record>) {
    && (forall k :: k in t <==> Get(PromotedKeys(rs), k).Some?)
    && (forall k :: k in t ==> SameKey(t[k], Get(PromotedKeys(rs), k).value))
    && (forall k :: k in t ==> CitesVersion(m, t[k].sourceVersionId))
  }

  /** Every client of the records has its alias; batches leave the table alone. */
  ghost predicate HoldsAliases(t: Table<EntityAlias>, rs: seq<Record>) {
    t == Inserted(map[], AliasRows(rs))
  }

  predicate SameKey(key: IdentityKey, c: Candidate) {
    key.resourceId == c.resourceId && key.system == c.system && key.keyType == c.keyType
    && key.externalKey == c.externalKey
  }

  predicate CitesVersion(m: EntryMap, id: Id) {
    id.SourceVersionId? && id.record in m && 1 <= id.version <= |m[id.record].record.versions|
  }

  /** The records of a corpus are the records of the entries. */
  ghost predicate EntriesOf(m: EntryMap, rs: seq<Record>) {
    && WellFormed(rs)
    && (forall k :: k in m <==> k in ById(rs))
    && (forall k :: k in m ==> m[k].record == ById(rs)[k])
  }

  /** The whole database is the one described by the entries. */
  ghost predicate Tracks(db: Db, m: EntryMap, rs: seq<Record>) {
    && WellFormedEntries(m) && EntriesOf(m, rs)
    && HoldsBeside(db.resources, m, ResourceOf, SharedRows(rs))
    && Holds(db.contentObjects, m, ContentObjectOf)
    && HoldsAliases(db.entityAliases, rs)
    && Holds(db.sourceObjects, m, SourceObjectOf)
    && Holds(db.sourceVersions, m, SourceVersionOf)
    && Holds(db.contentVersions, m, ContentVersionOf)
    && Holds(db.relationships, m, RelationshipFor)
    && Holds(db.assertions, m, AssertionOf)
    && Holds(db.provenance, m, ProvenanceOf)
    && Holds(db.documents, m, DocumentOf)
    && Holds(db.candidates, m, CandidateOf)
    && HoldsKeys(db.identityKeys, m, rs)
  }

  // ---- An ingest is described by fresh entries

  lemma FreshEntries(rs: seq<Record>)
    requires WellFormed(rs)
    ensures WellFormedEntries(Fresh(rs)) && EntriesOf(Fresh(rs), rs)
  {
    ByIdKeys(rs);
    forall k | k in Fresh(rs)
      ensures WellFormedEntry(k, Fresh(rs)[k])
    {
      var i :| 0 <= i < |rs| && rs[i].id == k;
      ByIdAt(rs, i);
    }
  }

  /** Rows inserted record by record into an empty table. */
  lemma InsertedHolds<T(!new)>(rs: seq<Record>, g: Record -> seq<Row<T>>, row: (Entry, Id) -> Option<T>)
    requires WellFormed(rs) && Owned(g)
    requires forall r, k :: WellFormedRecord(r) && Owner(k) == r.id ==>
                              Find(g(r), k) == row(Entry(r, |r.versions|, false), k)
    ensures Holds(Inserted(map[], Flat(rs, g)), Fresh(rs), row)
  {
    FreshEntries(rs);
    var t: Table<T> := Inserted(map[], Flat(rs, g));
    FindKeys(Flat(rs, g));
    forall k
      ensures k in t <==> Owner(k) in Fresh(rs) && row(Fresh(rs)[Owner(k)], k).Some?
      ensures k in t ==> row(Fresh(rs)[Owner(k)], k) == Some(t[k])
    {
      FindFlat(rs, g, k);
      if Owner(k) in Fresh(rs) {
        assert WellFormedEntry(Owner(k), Fresh(rs)[Owner(k)]);
      }
    }
  }
}
