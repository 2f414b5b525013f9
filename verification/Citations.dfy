/** What the tables of a described database say, in terms of records and of the tables themselves: every record is
    stored as it is, every row that cites a version says what that version says, and the text of every live record
    can be found. */
module Citations {
  import opened Prelude
  import opened Corpus
  import opened Text
  import opened Statements
  import opened RecordRows
  import opened JsMap
  import opened ScaleTables
  import opened ScaleRows
  import opened ScaleState
  import opened ScaleConstraints
  import opened ScaleReachable
  import opened ScaleRuns
  import ScaleIngest
  import Chunking

  // ---- Every record is stored as it is

  predicate ObjectStored(db: Db, r: Record)
    requires r.versions != []
  {
    var k := SourceObjectId(r.id);
    k in db.sourceObjects
    && db.sourceObjects[k] ==
       SourceObject(SourceId(r.sourceSystem), r.visibility, r.external, r.versions[0].updatedAt,
                    Last(r.versions).updatedAt, Last(r.versions).contentHashKey, r.deleted)
  }

  /** Both resources of a record carry its latest title and text, its visibility and its status. */
  predicate ResourcesStored(db: Db, r: Record)
    requires r.versions != []
  {
    var e, c, latest := EvidenceResource(r.id), ContentResource(r.id), Last(r.versions);
    && e in db.resources && c in db.resources
    && db.resources[e] ==
       Resource(EvidenceType, r.visibility, latest.title, latest.body,
                Properties(Some(r.id), Some(r.deleted), None, None), if r.deleted then DeletedStatus else ActiveStatus)
    && db.resources[c] ==
       Resource(DocumentType, r.visibility, latest.title, latest.body,
                Properties(Some(r.id), db.resources[c].properties.deleted, Some(r.sourceSystem), None),
                if r.deleted then DeletedStatus else ActiveStatus)
    && db.resources[c].properties.deleted in {None, Some(r.deleted)}
  }

  /** The `n`-th version is stored once as it came from the source and once as content, and is current if it is the
      last. */
  predicate VersionStored(db: Db, r: Record, n: nat)
    requires 1 <= n <= |r.versions|
  {
    var s, c, v := SourceVersionId(r.id, n), ContentVersionId(r.id, n), r.versions[n - 1];
    && s in db.sourceVersions
    && db.sourceVersions[s] ==
       SourceVersion(SourceObjectId(r.id), r.visibility, v.contentHashKey, v, r.sourceSystem, r.external, v.updatedAt)
    && c in db.contentVersions
    && db.contentVersions[c] ==
       ContentVersion(ContentResource(r.id), s, r.visibility, v.body, v.contentHashKey, n, n == |r.versions|)
  }

  predicate PointerStored(db: Db, r: Record) {
    var k := ContentResource(r.id);
    k in db.contentObjects && db.contentObjects[k].currentVersionId == Some(ContentVersionId(r.id, |r.versions|))
  }

  /** Both references of a record are candidates for the canonical resources they stand for. */
  predicate CandidatesStored(db: Db, r: Record) {
    var client, project := CandidateId(r.id, ClientRef, r.canonicalClientId),
                           CandidateId(r.id, ProjectRef, r.canonicalProjectId);
    var cited := SourceVersionId(r.id, |r.versions|);
    && client in db.candidates && project in db.candidates
    && db.candidates[client] ==
       Candidate(r.sourceSystem, ClientRef, r.sourceClientReference, r.canonicalClientId, cited, r.ambiguousAlias)
    && db.candidates[project] ==
       Candidate(r.sourceSystem, ProjectRef, r.sourceProjectReference, r.canonicalProjectId, cited, r.ambiguousAlias)
  }

  ghost predicate RecordStored(db: Db, r: Record)
    requires r.versions != []
  {
    && ObjectStored(db, r) && ResourcesStored(db, r) && PointerStored(db, r) && CandidatesStored(db, r)
    && forall n :: 1 <= n <= |r.versions| ==> VersionStored(db, r, n)
  }

  lemma TrackedTables(db: Db, m: EntryMap, rs: seq<Record>)
    requires Tracks(db, m, rs)
    ensures WellFormedEntries(m) && EntriesOf(m, rs)
    ensures HoldsBeside(db.resources, m, ResourceOf, SharedRows(rs))
    ensures Holds(db.sourceObjects, m, SourceObjectOf) && Holds(db.sourceVersions, m, SourceVersionOf)
    ensures Holds(db.contentVersions, m, ContentVersionOf) && Holds(db.contentObjects, m, ContentObjectOf)
    ensures Holds(db.candidates, m, CandidateOf) && Holds(db.assertions, m, AssertionOf)
    ensures Holds(db.provenance, m, ProvenanceOf) && Holds(db.documents, m, DocumentOf)
  {
  }

  lemma RowBeside<T(!new)>(t: Table<T>, m: EntryMap, row: (Entry, Id) -> Option<T>, shared: seq<Row<T>>, k: Id)
    requires HoldsBeside(t, m, row, shared) && Owner(k) in m && row(m[Owner(k)], k).Some?
    ensures k in t && Some(t[k]) == row(m[Owner(k)], k)
  {
  }

  lemma EntryAt(m: EntryMap, rs: seq<Record>, i: nat)
    requires WellFormedEntries(m) && EntriesOf(m, rs) && i < |rs|
    ensures rs[i].id in m && m[rs[i].id].record == rs[i] && WellFormedEntry(rs[i].id, m[rs[i].id])
  {
    ByIdAt(rs, i);
  }

  /** The rows of a record, seen from its entry. */
  lemma OwnedValues(o: Id, e: Entry)
    requires WellFormedEntry(o, e)
    ensures var r, latest := e.record, Last(e.record.versions);
            && SourceObjectOf(e, SourceObjectId(o)) ==
               Some(SourceObject(SourceId(r.sourceSystem), r.visibility, r.external, r.versions[0].updatedAt,
                                 latest.updatedAt, latest.contentHashKey, r.deleted))
            && ContentObjectOf(e, ContentResource(o)) == Some(ContentObject(Some(ContentVersionId(o, |r.versions|))))
    ensures Owner(SourceObjectId(o)) == o && Owner(ContentResource(o)) == o && Owner(EvidenceResource(o)) == o
  {
  }

  lemma ResourceValues(o: Id, e: Entry)
    requires WellFormedEntry(o, e)
    ensures var r, latest := e.record, Last(e.record.versions);
            var status, c := if r.deleted then DeletedStatus else ActiveStatus, ResourceOf(e, ContentResource(o));
            && ResourceOf(e, EvidenceResource(o)) ==
               Some(Resource(EvidenceType, r.visibility, latest.title, latest.body,
                             Properties(Some(o), Some(r.deleted), None, None), status))
            && c.Some? && c.value.properties.deleted in {None, Some(r.deleted)}
            && c.value == Resource(DocumentType, r.visibility, latest.title, latest.body,
                                   Properties(Some(o), c.value.properties.deleted, Some(r.sourceSystem), None), status)
  {
  }

  lemma VersionValues(o: Id, e: Entry, n: nat)
    requires WellFormedEntry(o, e) && 1 <= n <= |e.record.versions|
    ensures var r, v, s, c := e.record, e.record.versions[n - 1], SourceVersionId(o, n), ContentVersionId(o, n);
            && Owner(s) == o && Owner(c) == o
            && SourceVersionOf(e, s) ==
               Some(SourceVersion(SourceObjectId(o), r.visibility, v.contentHashKey, v, r.sourceSystem, r.external,
                                  v.updatedAt))
            && ContentVersionOf(e, c) ==
               Some(ContentVersion(ContentResource(o), s, r.visibility, v.body, v.contentHashKey, n,
                                   n == |r.versions|))
  {
  }

  lemma CandidateValues(o: Id, e: Entry)
    requires WellFormedEntry(o, e)
    ensures var r := e.record;
            var client, project := CandidateId(o, ClientRef, r.canonicalClientId),
                                   CandidateId(o, ProjectRef, r.canonicalProjectId);
            var cited := SourceVersionId(o, |r.versions|);
            && Owner(client) == o && Owner(project) == o
            && CandidateOf(e, client) ==
               Some(Candidate(r.sourceSystem, ClientRef, r.sourceClientReference, r.canonicalClientId, cited,
                              r.ambiguousAlias))
            && CandidateOf(e, project) ==
               Some(Candidate(r.sourceSystem, ProjectRef, r.sourceProjectReference, r.canonicalProjectId, cited,
                              r.ambiguousAlias))
  {
  }

  lemma RowsAreStored(db: Db, m: EntryMap, rs: seq<Record>, i: nat)
    requires Tracks(db, m, rs) && i < |rs|
    ensures rs[i].versions != [] && ObjectStored(db, rs[i]) && PointerStored(db, rs[i]) && ResourcesStored(db, rs[i])
  {
    hide Tracks, Holds, HoldsBeside, WellFormedEntry, SourceObjectOf, ResourceOf, ContentObjectOf, Owner, SharedRows,
      EntriesOf, WellFormedEntries;
    var o := rs[i].id;
    TrackedTables(db, m, rs);
    EntryAt(m, rs, i);
    EntryHasVersion(o, m[o]);
    OwnedValues(o, m[o]);
    ResourceValues(o, m[o]);
    RowOf(db.sourceObjects, m, SourceObjectOf, SourceObjectId(o));
    RowOf(db.contentObjects, m, ContentObjectOf, ContentResource(o));
    RowBeside(db.resources, m, ResourceOf, SharedRows(rs), EvidenceResource(o));
    RowBeside(db.resources, m, ResourceOf, SharedRows(rs), ContentResource(o));
  }

  lemma CandidatesAreStored(db: Db, m: EntryMap, rs: seq<Record>, i: nat)
    requires Tracks(db, m, rs) && i < |rs|
    ensures CandidatesStored(db, rs[i])
  {
    hide Tracks, Holds, HoldsBeside, WellFormedEntry, Owner, SharedRows, EntriesOf, WellFormedEntries,
      SourceObjectOf, ResourceOf, SourceVersionOf, ContentVersionOf, ContentObjectOf, CandidateOf,
      AssertionOf, ProvenanceOf, DocumentOf;
    var r, o := rs[i], rs[i].id;
    TrackedTables(db, m, rs);
    EntryAt(m, rs, i);
    CandidateValues(o, m[o]);
    RowOf(db.candidates, m, CandidateOf, CandidateId(o, ClientRef, r.canonicalClientId));
    RowOf(db.candidates, m, CandidateOf, CandidateId(o, ProjectRef, r.canonicalProjectId));
  }

  lemma VersionIsStored(db: Db, m: EntryMap, rs: seq<Record>, i: nat, n: nat)
    requires Tracks(db, m, rs) && i < |rs| && 1 <= n <= |rs[i].versions|
    ensures VersionStored(db, rs[i], n)
  {
    hide Tracks, Holds, HoldsBeside, WellFormedEntry, Owner, SharedRows, EntriesOf, WellFormedEntries,
      SourceObjectOf, ResourceOf, SourceVersionOf, ContentVersionOf, ContentObjectOf, CandidateOf,
      AssertionOf, ProvenanceOf, DocumentOf;
    var o := rs[i].id;
    TrackedTables(db, m, rs);
    EntryAt(m, rs, i);
    VersionValues(o, m[o], n);
    RowOf(db.sourceVersions, m, SourceVersionOf, SourceVersionId(o, n));
    RowOf(db.contentVersions, m, ContentVersionOf, ContentVersionId(o, n));
  }

  /** Every record is in the tables with its own values. */
  lemma RecordsAreStored(db: Db, m: EntryMap, rs: seq<Record>, i: nat)
    requires Tracks(db, m, rs) && i < |rs|
    ensures rs[i].versions != [] && RecordStored(db, rs[i])
  {
    hide Tracks, ObjectStored, ResourcesStored, PointerStored, CandidatesStored, VersionStored;
    RowsAreStored(db, m, rs, i);
    CandidatesAreStored(db, m, rs, i);
    forall n | 1 <= n <= |rs[i].versions|
      ensures VersionStored(db, rs[i], n)
    {
      VersionIsStored(db, m, rs, i, n);
    }
  }

  // ---- Clients and projects have the names that their last record gives them

  /** No later record has the client. */
  ghost predicate LastOfClient(rs: seq<Record>, i: nat)
    requires i < |rs|
  {
    forall j :: i < j < |rs| ==> rs[j].canonicalClientId != rs[i].canonicalClientId
  }

  ghost predicate LastOfProject(rs: seq<Record>, i: nat)
    requires i < |rs|
  {
    forall j :: i < j < |rs| ==> rs[j].canonicalProjectId != rs[i].canonicalProjectId
  }

  predicate ClientStored(db: Db, r: Record) {
    && r.canonicalClientId in db.resources
    && var row := db.resources[r.canonicalClientId];
    && row.semanticType == ClientType && row.scope == Everyone && row.status == ActiveStatus
    && row.name == r.canonicalClientName && row.summary == "Synthetic benchmark client " + row.name + "."
  }

  /** The project, and the hypothesis about it, which names the project it belongs to. */
  predicate ProjectStored(db: Db, r: Record) {
    && r.canonicalProjectId in db.resources && HypothesisResource(r.canonicalProjectId) in db.resources
    && var row, about := db.resources[r.canonicalProjectId], db.resources[HypothesisResource(r.canonicalProjectId)];
    && row.semanticType == ProjectType && row.scope == Everyone && row.status == ActiveStatus
    && row.name == r.canonicalProjectName && row.summary == "Synthetic benchmark project " + row.name + "."
    && row.properties.parent == Some(r.canonicalClientId)
    && about.semanticType == HypothesisType && about.scope == Everyone && about.status == ActiveStatus
    && about.name == "Completion barriers for " + r.canonicalProjectName
    && about.summary == "Which issues prevent completion of " + r.canonicalProjectName + "?"
    && about.properties.parent == Some(r.canonicalProjectId)
  }

  lemma ClientRowOf(rs: seq<Record>, i: nat)
    requires WellFormed(rs) && i < |rs| && LastOfClient(rs, i)
    ensures Find(SharedRows(rs), rs[i].canonicalClientId) ==
            Some(ClientRow((rs[i].canonicalClientId, rs[i].canonicalClientName)).val)
  {
    hide FromPairs, Map, ProjectMap;
    var cs, k := Map(rs, ClientPair), rs[i].canonicalClientId;
    GetLast(cs, i);
    ClientKeys(rs);
    var a, b, c := Map(ClientMap(rs), ClientRow), Map(ProjectMap(rs), ProjectRow),
                   Map(ProjectMap(rs), HypothesisRow);
    ScaleIngest.FindEntries(ClientMap(rs), ClientRow, k);
    FindAppend(a + b, c, k);
    FindAppend(a, b, k);
  }

  lemma ProjectRowOf(rs: seq<Record>, i: nat)
    requires WellFormed(rs) && i < |rs| && LastOfProject(rs, i)
    ensures var e := (rs[i].canonicalProjectId, (rs[i].canonicalProjectName, rs[i].canonicalClientId));
            && Find(SharedRows(rs), e.0) == Some(ProjectRow(e).val)
            && Find(SharedRows(rs), HypothesisResource(e.0)) == Some(HypothesisRow(e).val)
  {
    hide FromPairs, Map;
    var ps, k := Map(rs, ProjectPair), rs[i].canonicalProjectId;
    GetLast(ps, i);
    ClientKeys(rs);
    var m := ProjectMap(rs);
    var a, b, c := Map(ClientMap(rs), ClientRow), Map(m, ProjectRow), Map(m, HypothesisRow);
    forall x: Id | !x.ClientId?
      ensures Find(a, x) == None
    {
      FindNone(a, x);
    }
    ScaleIngest.FindEntries(m, ProjectRow, k);
    FindAppend(a + b, c, k);
    FindAppend(a, b, k);
    HypothesisFound(m, k);
    FindNone(b, HypothesisResource(k));
    FindAppend(a + b, c, HypothesisResource(k));
    FindAppend(a, b, HypothesisResource(k));
  }

  lemma HypothesisFound(m: Entries<Id, (string, Id)>, k: Id)
    requires DistinctKeys(m) && Get(m, k).Some?
    ensures Find(Map(m, HypothesisRow), HypothesisResource(k)) == Some(HypothesisRow((k, Get(m, k).value)).val)
  {
    GetNone(m, k);
    var i :| 0 <= i < |m| && m[i].0 == k;
    HypothesesDisjoint(m);
    GetAt(m, i);
    FindAt(Map(m, HypothesisRow), i, HypothesisResource(k));
    assert m[i] == (k, Get(m, k).value);
  }

  lemma SharedFound(db: Db, m: EntryMap, rs: seq<Record>, k: Id)
    requires Tracks(db, m, rs) && !k.RecordId? && Owner(k) == k
    ensures k in db.resources <==> Find(SharedRows(rs), k).Some?
    ensures k in db.resources ==> Find(SharedRows(rs), k) == Some(db.resources[k])
  {
    hide Tracks, Find, SharedRows, Owner, ById;
    TrackedTables(db, m, rs);
    RecordIdsOnly(m, rs);
  }

  lemma ClientIsStored(db: Db, m: EntryMap, rs: seq<Record>, i: nat)
    requires Tracks(db, m, rs) && i < |rs| && LastOfClient(rs, i)
    ensures ClientStored(db, rs[i])
  {
    hide Tracks, SharedRows, Find;
    TrackedEntries(db, m, rs);
    assert WellFormedRecord(rs[i]);
    SharedFound(db, m, rs, rs[i].canonicalClientId);
    ClientRowOf(rs, i);
  }

  lemma ProjectIsStored(db: Db, m: EntryMap, rs: seq<Record>, i: nat)
    requires Tracks(db, m, rs) && i < |rs| && LastOfProject(rs, i)
    ensures ProjectStored(db, rs[i])
  {
    hide Tracks, SharedRows, Find;
    TrackedEntries(db, m, rs);
    assert WellFormedRecord(rs[i]);
    SharedFound(db, m, rs, rs[i].canonicalProjectId);
    SharedFound(db, m, rs, HypothesisResource(rs[i].canonicalProjectId));
    ProjectRowOf(rs, i);
  }

  // ---- Rows that cite a version say what it says

  /** A claim has the stance, the time and the visibility of the source version it cites, about the evidence resource
      of the object that the version belongs to. */
  predicate ClaimIsTrue(db: Db, a: Assertion, r: Record) {
    && a.sourceVersionId in db.sourceVersions
    && var s := db.sourceVersions[a.sourceVersionId];
    && a.stance == s.payload.stance && a.validFrom == s.payload.updatedAt && a.scope == s.scope
    && a.subject == EvidenceResource(r.id) && s.sourceObjectId == SourceObjectId(r.id)
    && a.target == HypothesisResource(r.canonicalProjectId)
  }

  /** An excerpt is the whole text of the version it cites, which is the one its claim cites. */
  predicate ExcerptIsTrue(db: Db, p: Provenance) {
    && p.sourceVersionId in db.sourceVersions && p.assertionId in db.assertions
    && db.assertions[p.assertionId].sourceVersionId == p.sourceVersionId
    && p.excerpt == db.sourceVersions[p.sourceVersionId].payload.body && p.endOffset == |p.excerpt|
  }

  /** The text of a document has in it the part of the version's text that its offsets name, the version's title, the
      names of client and project, and the references by which the source knows them. */
  ghost predicate Quotes(d: Document, v: Version, r: Record) {
    && d.chunkStart < d.chunkEnd <= |v.body|
    && Contains(d.body, v.body[d.chunkStart..d.chunkEnd]) && Contains(d.body, v.title)
    && Contains(d.body, r.canonicalClientName) && Contains(d.body, r.canonicalProjectName)
    && Contains(d.body, r.sourceClientReference) && Contains(d.body, r.sourceProjectReference)
  }

  /** A document cites a content version, quotes it, and has its time and its visibility; it is active exactly while
      that version is current and the record is not deleted. */
  ghost predicate DocumentIsTrue(db: Db, d: Document, r: Record) {
    && d.contentVersionId in db.contentVersions && d.assertionId in db.assertions
    && var w := db.contentVersions[d.contentVersionId];
    && w.sourceVersionId in db.sourceVersions
    && var s := db.sourceVersions[w.sourceVersionId];
    && w.body == s.payload.body && Quotes(d, s.payload, r)
    && d.resourceId == EvidenceResource(r.id) && w.contentId == ContentResource(r.id)
    && db.assertions[d.assertionId].sourceVersionId == w.sourceVersionId
    && d.scope == w.scope && d.updatedAt == s.payload.updatedAt
    && (d.active <==> w.isCurrent && !r.deleted)
  }

  /** The six parts of a document's text. */
  lemma DocumentParts(r: Record, v: Version, assertionId: Id, chunk: Chunking.TextChunk, active: bool)
    ensures var d := DocumentFor(r, v, assertionId, chunk, active).body;
            && Contains(d, chunk.text) && Contains(d, v.title)
            && Contains(d, r.canonicalClientName) && Contains(d, r.canonicalProjectName)
            && Contains(d, r.sourceClientReference) && Contains(d, r.sourceProjectReference)
  {
    hide Contains;
    ContainsItself(v.title);
    var a := v.title + ". Client: ";
    var b := a + r.canonicalClientName;
    var c := b + ". Project: ";
    var d := c + r.canonicalProjectName;
    var e := d + ". ";
    var f := e + chunk.text;
    var g := f + " ";
    var h := g + r.sourceClientReference;
    var i := h + " ";
    Appended(v.title, ". Client: ");
    Appended(a, r.canonicalClientName);
    Appended(b, ". Project: ");
    Appended(c, r.canonicalProjectName);
    Appended(d, ". ");
    Appended(e, chunk.text);
    Appended(f, " ");
    Appended(g, r.sourceClientReference);
    Appended(h, " ");
    Appended(i, r.sourceProjectReference);
  }

  /** A document of an entry, against the version it was made from. */
  lemma DocumentText(o: Id, e: Entry, k: Id)
    requires WellFormedEntry(o, e) && Owner(k) == o && DocumentOf(e, k).Some?
    ensures var d, v := DocumentOf(e, k).value, VersionAt(e.record, VersionOf(e, k));
            && Quotes(d, v, e.record)
            && d.scope == e.record.visibility && d.updatedAt == v.updatedAt
            && AssertionOf(e, d.assertionId).Some?
            && AssertionOf(e, d.assertionId).value.sourceVersionId == SourceVersionId(o, VersionOf(e, k))
  {
    hide Chunking.Chunks, Contains, DocumentFor;
    var r, n := e.record, VersionOf(e, k);
    var v, cs := VersionAt(r, n), ChunksAt(r, n);
    ChunksAreSlices(v.body);
    var d := DocumentOf(e, k).value;
    DocumentParts(r, v, d.assertionId, cs[k.chunk], d.active);
    DocumentColumns(r, n, cs[k.chunk], if k.DocumentId? then AssertionId(o) else AssertionUpdateId(o, n));
  }

  lemma DocumentColumns(r: Record, n: int, chunk: Chunking.TextChunk, assertionId: Id)
    ensures var d := DocumentAt(r, n, chunk, assertionId);
            && d.chunkStart == chunk.startOffset && d.chunkEnd == chunk.endOffset && d.assertionId == assertionId
            && d.scope == r.visibility && d.updatedAt == VersionAt(r, n).updatedAt
            && d == DocumentFor(r, VersionAt(r, n), assertionId, chunk, d.active)
  {
  }

  lemma ChunksAreSlices(text: string)
    ensures var cs := Chunking.Chunks(text);
            forall i :: 0 <= i < |cs| ==> Chunking.WellCut(text, Chunking.MAX_CHARACTERS, cs[i])
  {
    Chunking.ChunksAreWellCut(text, 0, 0, Chunking.MAX_CHARACTERS, Chunking.OVERLAP_CHARACTERS);
    assert Chunking.Chunks(text) ==
           Chunking.ChunksFrom(text, 0, 0, Chunking.MAX_CHARACTERS, Chunking.OVERLAP_CHARACTERS);
  }

  /** A claim of an entry, against the version it was made from. */
  lemma ClaimValues(o: Id, e: Entry, k: Id)
    requires WellFormedEntry(o, e) && Owner(k) == o && AssertionOf(e, k).Some?
    ensures var a, n := AssertionOf(e, k).value, VersionOf(e, k);
            && 1 <= n <= |e.record.versions|
            && a.sourceVersionId == SourceVersionId(o, n)
            && a.stance == e.record.versions[n - 1].stance && a.validFrom == e.record.versions[n - 1].updatedAt
            && a.scope == e.record.visibility && a.subject == EvidenceResource(o)
            && a.target == HypothesisResource(e.record.canonicalProjectId)
  {
  }

  lemma ExcerptValues(o: Id, e: Entry, k: Id)
    requires WellFormedEntry(o, e) && Owner(k) == o && ProvenanceOf(e, k).Some?
    ensures var p, n := ProvenanceOf(e, k).value, VersionOf(e, k);
            && 1 <= n <= |e.record.versions|
            && p.sourceVersionId == SourceVersionId(o, n)
            && p.excerpt == e.record.versions[n - 1].body && p.endOffset == |p.excerpt|
            && Owner(p.assertionId) == o && AssertionOf(e, p.assertionId).Some?
            && AssertionOf(e, p.assertionId).value.sourceVersionId == SourceVersionId(o, n)
  {
  }

  lemma RowHeld<T(!new)>(t: Table<T>, m: EntryMap, row: (Entry, Id) -> Option<T>, k: Id)
    requires Holds(t, m, row) && k in t
    ensures Owner(k) in m && row(m[Owner(k)], k) == Some(t[k])
  {
  }

  /** The two rows of a stored version. */
  lemma CitedVersion(db: Db, m: EntryMap, rs: seq<Record>, i: nat, n: nat)
    requires Tracks(db, m, rs) && i < |rs| && 1 <= n <= |rs[i].versions|
    ensures var s, v := SourceVersionId(rs[i].id, n), rs[i].versions[n - 1];
            && s in db.sourceVersions && db.sourceVersions[s].payload == v
            && db.sourceVersions[s].scope == rs[i].visibility
            && db.sourceVersions[s].sourceObjectId == SourceObjectId(rs[i].id)
    ensures var c := ContentVersionId(rs[i].id, n);
            && c in db.contentVersions && db.contentVersions[c].sourceVersionId == SourceVersionId(rs[i].id, n)
            && db.contentVersions[c].body == rs[i].versions[n - 1].body
            && db.contentVersions[c].contentId == ContentResource(rs[i].id)
            && db.contentVersions[c].scope == rs[i].visibility
            && db.contentVersions[c].isCurrent == (n == |rs[i].versions|)
  {
    hide Tracks;
    VersionIsStored(db, m, rs, i, n);
  }

  /** The record and the version that a claim is about. */
  lemma ClaimPlace(db: Db, m: EntryMap, rs: seq<Record>, k: Id) returns (i: nat, n: nat)
    requires Tracks(db, m, rs) && k in db.assertions
    ensures i < |rs| && 1 <= n <= |rs[i].versions|
    ensures var a, v := db.assertions[k], rs[i].versions[n - 1];
            && a.sourceVersionId == SourceVersionId(rs[i].id, n) && a.stance == v.stance
            && a.validFrom == v.updatedAt && a.scope == rs[i].visibility && a.subject == EvidenceResource(rs[i].id)
            && a.target == HypothesisResource(rs[i].canonicalProjectId)
  {
    hide Tracks, Holds, HoldsBeside, WellFormedEntry, WellFormedEntries, Owner, SharedRows, EntriesOf, VersionOf,
      SourceObjectOf, ResourceOf, SourceVersionOf, ContentVersionOf, ContentObjectOf, CandidateOf, AssertionOf,
      ProvenanceOf, DocumentOf, Contains;
    TrackedTables(db, m, rs);
    RowHeld(db.assertions, m, AssertionOf, k);
    var o := Owner(k);
    i := EntryRecord(m, rs, o);
    EntryAt(m, rs, i);
    ClaimValues(o, m[o], k);
    n := VersionOf(m[o], k);
    var a := db.assertions[k];
    assert AssertionOf(m[o], k) == Some(a);
    assert m[o].record == rs[i] && o == rs[i].id;
  }

  lemma ExcerptPlace(db: Db, m: EntryMap, rs: seq<Record>, k: Id) returns (i: nat, n: nat)
    requires Tracks(db, m, rs) && k in db.provenance
    ensures i < |rs| && 1 <= n <= |rs[i].versions|
    ensures var p := db.provenance[k];
            && p.sourceVersionId == SourceVersionId(rs[i].id, n) && p.excerpt == rs[i].versions[n - 1].body
            && p.endOffset == |p.excerpt| && p.assertionId in db.assertions
            && db.assertions[p.assertionId].sourceVersionId == p.sourceVersionId
  {
    hide Tracks, Holds, HoldsBeside, WellFormedEntry, WellFormedEntries, Owner, SharedRows, EntriesOf, VersionOf,
      SourceObjectOf, ResourceOf, SourceVersionOf, ContentVersionOf, ContentObjectOf, CandidateOf, AssertionOf,
      ProvenanceOf, DocumentOf, Contains;
    TrackedTables(db, m, rs);
    RowHeld(db.provenance, m, ProvenanceOf, k);
    var o := Owner(k);
    i := EntryRecord(m, rs, o);
    EntryAt(m, rs, i);
    ExcerptValues(o, m[o], k);
    n := VersionOf(m[o], k);
    var p := db.provenance[k];
    assert ProvenanceOf(m[o], k) == Some(p);
    assert m[o].record == rs[i] && o == rs[i].id;
    RowOf(db.assertions, m, AssertionOf, p.assertionId);
  }

  lemma DocumentValues(o: Id, e: Entry, k: Id)
    requires WellFormedEntry(o, e) && Owner(k) == o && DocumentOf(e, k).Some?
    ensures 1 <= VersionOf(e, k) <= |e.record.versions|
    ensures var d, n := DocumentOf(e, k).value, VersionOf(e, k);
            && d.contentVersionId == ContentVersionId(o, n) && d.resourceId == EvidenceResource(o)
            && Quotes(d, e.record.versions[n - 1], e.record)
            && d.scope == e.record.visibility && d.updatedAt == e.record.versions[n - 1].updatedAt
            && (d.active <==> n == |e.record.versions| && !e.record.deleted)
  {
    hide DocumentOf, VersionOf, Quotes, WellFormedEntry, Owner;
    EntryHasVersion(o, e);
    DocumentRefers(o, e, k);
    DocumentText(o, e, k);
  }

  lemma DocumentPlace(db: Db, m: EntryMap, rs: seq<Record>, k: Id) returns (i: nat, n: nat)
    requires Tracks(db, m, rs) && k in db.documents
    ensures i < |rs| && 1 <= n <= |rs[i].versions|
    ensures var d, r, v := db.documents[k], rs[i], rs[i].versions[n - 1];
            && d.contentVersionId == ContentVersionId(r.id, n) && d.resourceId == EvidenceResource(r.id)
            && Quotes(d, v, r)
            && d.scope == r.visibility && d.updatedAt == v.updatedAt
            && (d.active <==> n == |r.versions| && !r.deleted)
  {
    hide Tracks, Holds, HoldsBeside, WellFormedEntry, WellFormedEntries, Owner, SharedRows, EntriesOf, VersionOf,
      SourceObjectOf, ResourceOf, SourceVersionOf, ContentVersionOf, ContentObjectOf, CandidateOf, AssertionOf,
      ProvenanceOf, DocumentOf, Quotes;
    TrackedTables(db, m, rs);
    RowHeld(db.documents, m, DocumentOf, k);
    var o := Owner(k);
    i := EntryRecord(m, rs, o);
    EntryAt(m, rs, i);
    DocumentValues(o, m[o], k);
    n := VersionOf(m[o], k);
    var d := db.documents[k];
    assert DocumentOf(m[o], k) == Some(d);
    assert m[o].record == rs[i] && o == rs[i].id;
  }

  lemma DocumentClaim(db: Db, m: EntryMap, rs: seq<Record>, k: Id)
    requires Tracks(db, m, rs) && k in db.documents
    ensures var d := db.documents[k];
            d.assertionId in db.assertions && d.contentVersionId.ContentVersionId?
            && db.assertions[d.assertionId].sourceVersionId ==
               SourceVersionId(d.contentVersionId.record, d.contentVersionId.version)
  {
    hide Tracks, Holds, HoldsBeside, WellFormedEntry, Owner, SharedRows, EntriesOf, VersionOf, SourceObjectOf,
      ResourceOf, SourceVersionOf, ContentVersionOf, ContentObjectOf, CandidateOf, AssertionOf, ProvenanceOf,
      DocumentOf, Quotes;
    TrackedTables(db, m, rs);
    RowHeld(db.documents, m, DocumentOf, k);
    var o, d := Owner(k), db.documents[k];
    DocumentRefers(o, m[o], k);
    DocumentText(o, m[o], k);
    assert DocumentOf(m[o], k) == Some(d);
    RowOf(db.assertions, m, AssertionOf, d.assertionId);
  }

  /** Every claim is about a record and true of the version it cites. */
  lemma ClaimsAreTrue(db: Db, m: EntryMap, rs: seq<Record>, k: Id) returns (i: nat)
    requires Tracks(db, m, rs) && k in db.assertions
    ensures i < |rs| && ClaimIsTrue(db, db.assertions[k], rs[i])
  {
    hide Tracks;
    var n;
    i, n := ClaimPlace(db, m, rs, k);
    CitedVersion(db, m, rs, i, n);
  }

  /** Every excerpt quotes the version that its claim cites. */
  lemma ExcerptsAreTrue(db: Db, m: EntryMap, rs: seq<Record>, k: Id)
    requires Tracks(db, m, rs) && k in db.provenance
    ensures ExcerptIsTrue(db, db.provenance[k])
  {
    hide Tracks;
    var i, n := ExcerptPlace(db, m, rs, k);
    CitedVersion(db, m, rs, i, n);
  }

  /** Every document is about a record and holds what it cites. */
  lemma DocumentsAreTrue(db: Db, m: EntryMap, rs: seq<Record>, k: Id) returns (i: nat)
    requires Tracks(db, m, rs) && k in db.documents
    ensures i < |rs| && DocumentIsTrue(db, db.documents[k], rs[i])
  {
    hide Tracks, Quotes;
    var n;
    i, n := DocumentPlace(db, m, rs, k);
    DocumentClaim(db, m, rs, k);
    CitedVersion(db, m, rs, i, n);
  }

  // ---- The current text of every live record can be found

  /** Character `p` of a record's current text is in an active document about it. */
  predicate Searchable(db: Db, r: Record, p: nat) {
    exists k | k in db.documents :: Covers(db, db.documents[k], r, p)
  }

  predicate Covers(db: Db, d: Document, r: Record, p: nat) {
    && d.active && d.resourceId == EvidenceResource(r.id) && d.chunkStart <= p < d.chunkEnd
    && ContentResource(r.id) in db.contentObjects
    && db.contentObjects[ContentResource(r.id)].currentVersionId == Some(d.contentVersionId)
  }

  /** The document of a chunk of the latest version. */
  lemma LatestDocument(o: Id, e: Entry, i: nat) returns (k: Id)
    requires WellFormedEntry(o, e) && i < |Chunking.Chunks(Last(e.record.versions).body)|
    ensures Owner(k) == o && DocumentOf(e, k).Some? && VersionOf(e, k) == |e.record.versions|
    ensures var d, c := DocumentOf(e, k).value, Chunking.Chunks(Last(e.record.versions).body)[i];
            d.chunkStart == c.startOffset && d.chunkEnd == c.endOffset
  {
    hide Chunking.Chunks;
    var n := |e.record.versions|;
    k := if e.base == n then DocumentId(o, i) else DocumentUpdateId(o, n, i);
  }

  lemma CurrentTextIsSearchable(db: Db, m: EntryMap, rs: seq<Record>, i: nat, p: nat)
    requires Tracks(db, m, rs) && i < |rs| && !rs[i].deleted
    requires rs[i].versions != [] && p < |Last(rs[i].versions).body|
    ensures Searchable(db, rs[i], p)
  {
    hide Tracks, Holds, WellFormedEntry, DocumentOf, Owner, SharedRows, EntriesOf, VersionOf, Chunking.Chunks,
      ResourcesStored, ObjectStored, AssertionOf;
    var o, text := rs[i].id, Last(rs[i].versions).body;
    TrackedTables(db, m, rs);
    EntryAt(m, rs, i);
    Covered(text, p);
    var j :| 0 <= j < |Chunking.Chunks(text)|
             && Chunking.Chunks(text)[j].startOffset <= p < Chunking.Chunks(text)[j].endOffset;
    var k := LatestDocument(o, m[o], j);
    RowOf(db.documents, m, DocumentOf, k);
    DocumentRefers(o, m[o], k);
    RowsAreStored(db, m, rs, i);
    assert Covers(db, db.documents[k], rs[i], p);
  }

  lemma Covered(text: string, p: nat)
    requires p < |text|
    ensures var cs := Chunking.Chunks(text);
            exists i :: 0 <= i < |cs| && cs[i].startOffset <= p < cs[i].endOffset
  {
    Chunking.EveryCharacterIsInAChunk(text, 0, 0, Chunking.MAX_CHARACTERS, Chunking.OVERLAP_CHARACTERS, p);
    assert Chunking.Chunks(text) ==
           Chunking.ChunksFrom(text, 0, 0, Chunking.MAX_CHARACTERS, Chunking.OVERLAP_CHARACTERS);
  }

  // ---- All of it, for every run

  ghost predicate TrueTo(db: Db, rs: seq<Record>) {
    && (forall i :: 0 <= i < |rs| ==> rs[i].versions != [] && RecordStored(db, rs[i]))
    && (forall i :: 0 <= i < |rs| && LastOfClient(rs, i) ==> ClientStored(db, rs[i]))
    && (forall i :: 0 <= i < |rs| && LastOfProject(rs, i) ==> ProjectStored(db, rs[i]))
    && (forall k :: k in db.assertions ==> exists i :: 0 <= i < |rs| && ClaimIsTrue(db, db.assertions[k], rs[i]))
    && (forall k :: k in db.provenance ==> ExcerptIsTrue(db, db.provenance[k]))
    && (forall k :: k in db.documents ==> exists i :: 0 <= i < |rs| && DocumentIsTrue(db, db.documents[k], rs[i]))
    && (forall i, p: nat :: 0 <= i < |rs| && !rs[i].deleted && p < |Last(rs[i].versions).body| ==>
                              Searchable(db, rs[i], p))
  }

  /** After any run, replayed or not: every record of the final corpus is stored with its own values, clients and
      projects have their names, every claim, excerpt and document says what the version it cites says, and every
      character of every live record's current text is in an active document. */
  lemma TablesAreTrue(c: ScaleCorpus, steps: seq<UpdateStep>)
    requires WellFormed(c.records) && RunFits(c, steps)
    ensures TrueTo(Reached(c, steps), FinalCorpus(c, steps).records)
  {
    hide Tracks, Reached, FinalCorpus, ReachedEntries, WellFormed, RecordStored, ClaimIsTrue, ExcerptIsTrue,
      DocumentIsTrue, Searchable, ClientStored, ProjectStored, LastOfClient, LastOfProject;
    var db, m, rs := Reached(c, steps), ReachedEntries(c, steps), FinalCorpus(c, steps).records;
    ReachedTracks(c, steps);
    forall i | 0 <= i < |rs|
      ensures rs[i].versions != [] && RecordStored(db, rs[i])
      ensures LastOfClient(rs, i) ==> ClientStored(db, rs[i])
      ensures LastOfProject(rs, i) ==> ProjectStored(db, rs[i])
    {
      RecordsAreStored(db, m, rs, i);
      if LastOfClient(rs, i) {
        ClientIsStored(db, m, rs, i);
      }
      if LastOfProject(rs, i) {
        ProjectIsStored(db, m, rs, i);
      }
    }
    forall k | k in db.assertions
      ensures exists i :: 0 <= i < |rs| && ClaimIsTrue(db, db.assertions[k], rs[i])
    {
      var i := ClaimsAreTrue(db, m, rs, k);
    }
    forall k | k in db.provenance
      ensures ExcerptIsTrue(db, db.provenance[k])
    {
      ExcerptsAreTrue(db, m, rs, k);
    }
    forall k | k in db.documents
      ensures exists i :: 0 <= i < |rs| && DocumentIsTrue(db, db.documents[k], rs[i])
    {
      var i := DocumentsAreTrue(db, m, rs, k);
    }
    forall i, p: nat | 0 <= i < |rs| && !rs[i].deleted && p < |Last(rs[i].versions).body|
      ensures Searchable(db, rs[i], p)
    {
      CurrentTextIsSearchable(db, m, rs, i, p);
    }
  }
}
