/** The current view of a database: what a reader of the workspace can tell apart.
    It leaves out row ids, the version an identity key cites, and which write path filled a column. */
module ScaleView {
  import opened Prelude
  import opened Corpus
  import opened Statements
  import opened RecordRows
  import opened ScaleTables
  import opened ScaleState
  import Chunking

  datatype KeyView = KeyView(resourceId: Id, system: SourceSystem, keyType: KeyType, externalKey: string)
  datatype DocumentView = DocumentView(
    scope: Visibility, resourceId: Id, contentVersionId: Id, body: string, chunkIndex: int, chunkStart: nat,
    chunkEnd: nat, updatedAt: int)
  datatype AssertionView = AssertionView(
    scope: Visibility, subject: Id, stance: Stance, target: Id, relationshipId: Id, sourceVersionId: Id, validFrom: int)
  datatype ExcerptView = ExcerptView(sourceVersionId: Id, endOffset: nat, excerpt: string)

  datatype CurrentView = CurrentView(
    resources: Table<Resource>,
    contentObjects: Table<ContentObject>,
    entityAliases: Table<EntityAlias>,
    sourceObjects: Table<SourceObject>,
    sourceVersions: Table<SourceVersion>,
    contentVersions: Table<ContentVersion>,
    relationships: Table<Relationship>,
    candidates: Table<Candidate>,
    identityKeys: map<Id, KeyView>,
    activeDocuments: set<DocumentView>,
    openAssertions: set<AssertionView>,
    openExcerpts: set<ExcerptView>)

  /** The `deleted` property of a content resource is written by batches only. */
  function ViewResource(r: Resource): Resource {
    if r.semanticType.DocumentType? then r.(properties := r.properties.(deleted := None)) else r
  }

  function ViewResources(t: Table<Resource>): Table<Resource> { map k | k in t :: ViewResource(t[k]) }

  function ViewKeys(t: Table<IdentityKey>): map<Id, KeyView> {
    map k | k in t :: KeyView(t[k].resourceId, t[k].system, t[k].keyType, t[k].externalKey)
  }

  function ViewDocument(d: Document): DocumentView {
    DocumentView(d.scope, d.resourceId, d.contentVersionId, d.body, d.chunkIndex, d.chunkStart, d.chunkEnd, d.updatedAt)
  }

  function ViewDocuments(t: Table<Document>): set<DocumentView> {
    set k | k in t && t[k].active :: ViewDocument(t[k])
  }

  function ViewAssertion(a: Assertion): AssertionView {
    AssertionView(a.scope, a.subject, a.stance, a.target, a.relationshipId, a.sourceVersionId, a.validFrom)
  }

  function ViewAssertions(t: Table<Assertion>): set<AssertionView> {
    set k | k in t && t[k].validTo == None :: ViewAssertion(t[k])
  }

  function ViewExcerpt(p: Provenance): ExcerptView { ExcerptView(p.sourceVersionId, p.endOffset, p.excerpt) }

  function ViewExcerpts(t: Table<Provenance>, assertions: Table<Assertion>): set<ExcerptView> {
    set k | k in t && t[k].assertionId in assertions
            && assertions[t[k].assertionId].validTo == None :: ViewExcerpt(t[k])
  }

  function View(db: Db): CurrentView {
    CurrentView(ViewResources(db.resources), db.contentObjects, db.entityAliases, db.sourceObjects, db.sourceVersions,
                db.contentVersions, db.relationships, db.candidates, ViewKeys(db.identityKeys),
                ViewDocuments(db.documents), ViewAssertions(db.assertions), ViewExcerpts(db.provenance, db.assertions))
  }

  // ---- Two databases described by the same records have the same view

  /** Two descriptions of the same records, with possibly different histories. */
  ghost predicate SameRecords(m: EntryMap, n: EntryMap) {
    && WellFormedEntries(m) && WellFormedEntries(n) && m.Keys == n.Keys
    && forall k :: k in m ==> m[k].record == n[k].record
  }

  lemma SameRecordsOf(m: EntryMap, n: EntryMap, rs: seq<Record>)
    requires WellFormedEntries(m) && WellFormedEntries(n) && EntriesOf(m, rs) && EntriesOf(n, rs)
    ensures SameRecords(m, n) && SameRecords(n, m)
  {
    hide WellFormedEntries, WellFormed, ById;
  }

  lemma SameTable<T(!new)>(t: Table<T>, u: Table<T>, m: EntryMap, n: EntryMap, row: (Entry, Id) -> Option<T>)
    requires SameRecords(m, n) && Holds(t, m, row) && Holds(u, n, row)
    requires forall e: Entry, f: Entry, k: Id :: e.record == f.record ==> row(e, k) == row(f, k)
    ensures t == u
  {
    hide WellFormedEntries;
    forall k
      ensures k in t <==> k in u
      ensures k in t ==> t[k] == u[k]
    {
      if Owner(k) in m {
        assert row(m[Owner(k)], k) == row(n[Owner(k)], k);
      }
    }
  }

  lemma SameResources(t: Table<Resource>, u: Table<Resource>, m: EntryMap, n: EntryMap, shared: seq<Row<Resource>>)
    requires SameRecords(m, n) && HoldsBeside(t, m, ResourceOf, shared) && HoldsBeside(u, n, ResourceOf, shared)
    ensures ViewResources(t) == ViewResources(u)
  {
    hide WellFormedEntries, Find;
    forall k
      ensures k in t <==> k in u
      ensures k in t ==> ViewResource(t[k]) == ViewResource(u[k])
    {
      if Owner(k) in m {
        SameResourceRow(m[Owner(k)], n[Owner(k)], k);
      }
    }
  }

  lemma SameResourceRow(e: Entry, f: Entry, k: Id)
    requires e.record == f.record
    ensures ResourceOf(e, k).Some? <==> ResourceOf(f, k).Some?
    ensures ResourceOf(e, k).Some? ==> ViewResource(ResourceOf(e, k).value) == ViewResource(ResourceOf(f, k).value)
  {
  }

  lemma SameKeys(t: Table<IdentityKey>, u: Table<IdentityKey>, m: EntryMap, n: EntryMap, rs: seq<Record>)
    requires HoldsKeys(t, m, rs) && HoldsKeys(u, n, rs)
    ensures ViewKeys(t) == ViewKeys(u)
  {
    hide CitesVersion, PromotedKeys;
  }

  /** The key a document, assertion or provenance span of the latest version has under another history. */
  function LatestKey(e: Entry, k: Id): Id {
    var n, r := |e.record.versions|, e.record.id;
    if k.DocumentId? || k.DocumentUpdateId? then
      if e.base == n then DocumentId(r, k.chunk) else DocumentUpdateId(r, n, k.chunk)
    else if k.AssertionId? || k.AssertionUpdateId? then
      if e.base == n then AssertionId(r) else AssertionUpdateId(r, n)
    else if e.base == n then ProvenanceId(r) else ProvenanceUpdateId(r, n)
  }

  lemma LatestDocument(e: Entry, f: Entry, o: Id, k: Id)
    requires WellFormedEntry(o, e) && WellFormedEntry(o, f) && e.record == f.record && Owner(k) == o
    requires DocumentOf(e, k).Some? && DocumentOf(e, k).value.active
    ensures Owner(LatestKey(f, k)) == o && DocumentOf(f, LatestKey(f, k)).Some?
    ensures DocumentOf(f, LatestKey(f, k)).value.active
    ensures ViewDocument(DocumentOf(f, LatestKey(f, k)).value) == ViewDocument(DocumentOf(e, k).value)
  {
    hide Chunking.Chunks;
  }

  lemma LatestAssertion(e: Entry, f: Entry, o: Id, k: Id)
    requires WellFormedEntry(o, e) && WellFormedEntry(o, f) && e.record == f.record && Owner(k) == o
    requires AssertionOf(e, k).Some? && AssertionOf(e, k).value.validTo == None
    ensures Owner(LatestKey(f, k)) == o && AssertionOf(f, LatestKey(f, k)).Some?
    ensures AssertionOf(f, LatestKey(f, k)).value.validTo == None
    ensures ViewAssertion(AssertionOf(f, LatestKey(f, k)).value) == ViewAssertion(AssertionOf(e, k).value)
  {
  }

  lemma LatestExcerpt(e: Entry, f: Entry, o: Id, k: Id)
    requires WellFormedEntry(o, e) && WellFormedEntry(o, f) && e.record == f.record && Owner(k) == o
    requires ProvenanceOf(e, k).Some?
    requires AssertionOf(e, ProvenanceOf(e, k).value.assertionId).Some?
    requires AssertionOf(e, ProvenanceOf(e, k).value.assertionId).value.validTo == None
    ensures var p := ProvenanceOf(f, LatestKey(f, k));
            && Owner(LatestKey(f, k)) == o && p.Some? && Owner(p.value.assertionId) == o
            && AssertionOf(f, p.value.assertionId).Some? && AssertionOf(f, p.value.assertionId).value.validTo == None
            && ViewExcerpt(p.value) == ViewExcerpt(ProvenanceOf(e, k).value)
  {
  }

  lemma DocumentsIncluded(t: Table<Document>, u: Table<Document>, m: EntryMap, n: EntryMap)
    requires SameRecords(m, n) && Holds(t, m, DocumentOf) && Holds(u, n, DocumentOf)
    ensures ViewDocuments(t) <= ViewDocuments(u)
  {
    hide DocumentOf, WellFormedEntry, LatestKey, Owner;
    forall k | k in t && t[k].active
      ensures ViewDocument(t[k]) in ViewDocuments(u)
    {
      var o := Owner(k);
      LatestDocument(m[o], n[o], o, k);
      assert LatestKey(n[o], k) in u;
    }
  }

  lemma AssertionsIncluded(t: Table<Assertion>, u: Table<Assertion>, m: EntryMap, n: EntryMap)
    requires SameRecords(m, n) && Holds(t, m, AssertionOf) && Holds(u, n, AssertionOf)
    ensures ViewAssertions(t) <= ViewAssertions(u)
  {
    hide AssertionOf, WellFormedEntry, LatestKey, Owner;
    forall k | k in t && t[k].validTo == None
      ensures ViewAssertion(t[k]) in ViewAssertions(u)
    {
      var o := Owner(k);
      LatestAssertion(m[o], n[o], o, k);
      assert LatestKey(n[o], k) in u;
    }
  }

  lemma ProvenanceOwner(e: Entry, o: Id, k: Id)
    requires WellFormedEntry(o, e) && ProvenanceOf(e, k).Some?
    ensures Owner(ProvenanceOf(e, k).value.assertionId) == o
  {
  }

  lemma ExcerptsIncluded(t: Table<Provenance>, a: Table<Assertion>, u: Table<Provenance>, b: Table<Assertion>,
                         m: EntryMap, n: EntryMap)
    requires SameRecords(m, n) && Holds(t, m, ProvenanceOf) && Holds(u, n, ProvenanceOf)
    requires Holds(a, m, AssertionOf) && Holds(b, n, AssertionOf)
    ensures ViewExcerpts(t, a) <= ViewExcerpts(u, b)
  {
    hide AssertionOf, ProvenanceOf, WellFormedEntry, LatestKey, Owner;
    forall k | k in t && t[k].assertionId in a && a[t[k].assertionId].validTo == None
      ensures ViewExcerpt(t[k]) in ViewExcerpts(u, b)
    {
      var o := Owner(k);
      ProvenanceOwner(m[o], o, k);
      LatestExcerpt(m[o], n[o], o, k);
      var l := LatestKey(n[o], k);
      assert l in u && u[l].assertionId in b;
    }
  }

  /** The view depends on the records alone, not on how the database came to hold them. */
  lemma ViewIsDetermined(db: Db, m: EntryMap, other: Db, n: EntryMap, rs: seq<Record>)
    requires Tracks(db, m, rs) && Tracks(other, n, rs)
    ensures View(db) == View(other)
  {
    hide WellFormedEntries, EntriesOf, Holds, HoldsBeside, HoldsKeys, SharedRows, SameRecords, ViewDocuments,
      ViewAssertions, ViewExcerpts,
      ViewKeys, ViewResources, SourceObjectOf, SourceVersionOf, ContentVersionOf, ContentObjectOf, RelationshipFor,
      CandidateOf;
    SameRecordsOf(m, n, rs);
    SameOwnedTables(db, m, other, n);
    SameResources(db.resources, other.resources, m, n, SharedRows(rs));
    SameKeys(db.identityKeys, other.identityKeys, m, n, rs);
    DocumentsIncluded(db.documents, other.documents, m, n);
    DocumentsIncluded(other.documents, db.documents, n, m);
    AssertionsIncluded(db.assertions, other.assertions, m, n);
    AssertionsIncluded(other.assertions, db.assertions, n, m);
    ExcerptsIncluded(db.provenance, db.assertions, other.provenance, other.assertions, m, n);
    ExcerptsIncluded(other.provenance, other.assertions, db.provenance, db.assertions, n, m);
  }

  lemma SameOwnedTables(db: Db, m: EntryMap, other: Db, n: EntryMap)
    requires SameRecords(m, n)
    requires Holds(db.contentObjects, m, ContentObjectOf) && Holds(other.contentObjects, n, ContentObjectOf)
    requires Holds(db.sourceObjects, m, SourceObjectOf) && Holds(other.sourceObjects, n, SourceObjectOf)
    requires Holds(db.sourceVersions, m, SourceVersionOf) && Holds(other.sourceVersions, n, SourceVersionOf)
    requires Holds(db.contentVersions, m, ContentVersionOf) && Holds(other.contentVersions, n, ContentVersionOf)
    requires Holds(db.relationships, m, RelationshipFor) && Holds(other.relationships, n, RelationshipFor)
    requires Holds(db.candidates, m, CandidateOf) && Holds(other.candidates, n, CandidateOf)
    ensures db.contentObjects == other.contentObjects && db.sourceObjects == other.sourceObjects
    ensures db.sourceVersions == other.sourceVersions && db.contentVersions == other.contentVersions
    ensures db.relationships == other.relationships && db.candidates == other.candidates
  {
    hide Holds, SameRecords;
    SameTable(db.contentObjects, other.contentObjects, m, n, ContentObjectOf);
    SameTable(db.sourceObjects, other.sourceObjects, m, n, SourceObjectOf);
    SameTable(db.sourceVersions, other.sourceVersions, m, n, SourceVersionOf);
    SameTable(db.contentVersions, other.contentVersions, m, n, ContentVersionOf);
    SameTable(db.relationships, other.relationships, m, n, RelationshipFor);
    SameTable(db.candidates, other.candidates, m, n, CandidateOf);
  }
}
