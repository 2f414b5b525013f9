/** `inspectScaleCorpusIntegrity`: what its counts are in every state described by entries. */
module ScaleIntegrity {
  import opened Prelude
  import opened Corpus
  import opened Statements
  import opened RecordRows
  import opened JsMap
  import opened ScaleTables
  import opened ScaleState
  import opened ScaleConstraints
  import Chunking

  datatype Integrity = Integrity(
    logicalRecords: nat, immutableVersions: nat, activeDeletedRecords: nat, staleSearchDocuments: nat,
    searchChunks: nat, activeSearchChunks: nat, inactiveSearchChunks: nat, multiChunkResources: nat,
    currentVersionViolations: nat, ambiguousCandidates: nat, resolvedKeys: nat)

  function ActiveDocuments(db: Db): set<Id> {
    set k | k in db.documents && db.documents[k].active
  }

  function InactiveDocuments(db: Db): set<Id> {
    set k | k in db.documents && !db.documents[k].active
  }

  /** `GROUP BY resource_id HAVING count(*) > 1` over the active documents. */
  function MultiChunkResources(db: Db): set<Id> {
    set k | k in ActiveDocuments(db) && |ActiveDocumentsOf(db, db.documents[k].resourceId)| > 1 ::
      db.documents[k].resourceId
  }

  function ActiveDocumentsOf(db: Db, resource: Id): set<Id> {
    set k | k in ActiveDocuments(db) && db.documents[k].resourceId == resource
  }

  function ActiveDeleted(db: Db): set<Id> {
    set k | k in db.documents && db.documents[k].active && db.documents[k].resourceId in db.resources
            && db.resources[db.documents[k].resourceId].status == DeletedStatus
  }

  function StaleDocuments(db: Db): set<Id> {
    set k | k in db.documents && db.documents[k].active && db.documents[k].contentVersionId in db.contentVersions
            && !db.contentVersions[db.documents[k].contentVersionId].isCurrent
  }

  function CurrentVersionViolations(db: Db): set<Id> {
    set k | k in db.contentObjects && k in db.resources
            && (match db.contentObjects[k].currentVersionId
                case None => true
                case Some(v) => v !in db.contentVersions || !db.contentVersions[v].isCurrent)
  }

  function AmbiguousCandidates(db: Db): set<Id> {
    set k | k in db.candidates && db.candidates[k].ambiguous
  }

  function Inspect(db: Db): Integrity {
    Integrity(|db.sourceObjects|, |db.sourceVersions|, |ActiveDeleted(db)|, |StaleDocuments(db)|,
              |db.documents|, |ActiveDocuments(db)|, |InactiveDocuments(db)|, |MultiChunkResources(db)|,
              |CurrentVersionViolations(db)|, |AmbiguousCandidates(db)|, |db.identityKeys|)
  }

  // ---- Counting keys by the record they belong to

  function OwnedBy(s: set<Id>, o: Id): set<Id> {
    set k | k in s && Owner(k) == o
  }

  function Total(rs: seq<Record>, weight: Record -> nat): nat {
    if rs == [] then 0 else Total(DropLast(rs), weight) + weight(Last(rs))
  }

  /** A key set in which every record of the list owns `weight` keys, and nobody else owns any. */
  ghost predicate Apportioned(s: set<Id>, rs: seq<Record>, weight: Record -> nat) {
    && (forall k :: k in s ==> exists i :: 0 <= i < |rs| && rs[i].id == Owner(k))
    && (forall i :: 0 <= i < |rs| ==> |OwnedBy(s, rs[i].id)| == weight(rs[i]))
  }

  lemma WithoutOwner(s: set<Id>, o: Id)
    ensures |s| == |s - OwnedBy(s, o)| + |OwnedBy(s, o)|
    ensures forall p :: p != o ==> OwnedBy(s - OwnedBy(s, o), p) == OwnedBy(s, p)
    ensures forall k :: k in s - OwnedBy(s, o) ==> Owner(k) != o
  {
    hide Owner;
    assert s == (s - OwnedBy(s, o)) + OwnedBy(s, o);
    forall p | p != o
      ensures OwnedBy(s - OwnedBy(s, o), p) == OwnedBy(s, p)
    {
    }
  }

  lemma ApportionedRest(s: set<Id>, rs: seq<Record>, weight: Record -> nat)
    requires DistinctIds(rs) && Apportioned(s, rs, weight) && rs != []
    ensures Apportioned(s - OwnedBy(s, Last(rs).id), DropLast(rs), weight)
  {
    hide OwnedBy, Owner;
    var last, front := Last(rs), DropLast(rs);
    var rest := s - OwnedBy(s, last.id);
    WithoutOwner(s, last.id);
    forall k | k in rest
      ensures exists i :: 0 <= i < |front| && front[i].id == Owner(k)
    {
      var i :| 0 <= i < |rs| && rs[i].id == Owner(k);
      assert front[i].id == Owner(k);
    }
    forall i | 0 <= i < |front|
      ensures |OwnedBy(rest, front[i].id)| == weight(front[i])
    {
      assert rs[i].id != rs[|rs| - 1].id;
    }
  }

  lemma {:induction false} CountByOwner(s: set<Id>, rs: seq<Record>, weight: Record -> nat)
    requires DistinctIds(rs) && Apportioned(s, rs, weight)
    ensures |s| == Total(rs, weight)
  {
    hide Apportioned, OwnedBy, Owner;
    if rs == [] {
      assert s == {} by { NothingApportioned(s, weight); }
    } else {
      ApportionedRest(s, rs, weight);
      WithoutOwner(s, Last(rs).id);
      CountByOwner(s - OwnedBy(s, Last(rs).id), DropLast(rs), weight);
      assert |OwnedBy(s, Last(rs).id)| == weight(Last(rs)) by { LastShare(s, rs, weight); }
    }
  }

  lemma NothingApportioned(s: set<Id>, weight: Record -> nat)
    requires Apportioned(s, [], weight)
    ensures s == {}
  {
  }

  lemma LastShare(s: set<Id>, rs: seq<Record>, weight: Record -> nat)
    requires Apportioned(s, rs, weight) && rs != []
    ensures |OwnedBy(s, Last(rs).id)| == weight(Last(rs))
  {
  }

  /** A set that is the image of 1..n under a function without repeats has n elements. */
  lemma {:induction false} CountNumbered(s: set<Id>, f: int -> Id, n: nat)
    requires forall v :: 1 <= v <= n ==> f(v) in s
    requires forall k :: k in s ==> exists v :: 1 <= v <= n && f(v) == k
    requires forall v, w :: 1 <= v < w <= n ==> f(v) != f(w)
    ensures |s| == n
  {
    if n == 0 {
      assert s == {};
    } else {
      var rest := s - {f(n)};
      forall v | 1 <= v <= n - 1
        ensures f(v) in rest
      {
        assert f(v) != f(n);
      }
      CountNumbered(rest, f, n - 1);
    }
  }

  // ---- How many keys one record owns

  function One(r: Record): nat { 1 }
  function VersionCount(r: Record): nat { |r.versions| }
  function AmbiguityCount(r: Record): nat { if r.ambiguousAlias then 2 else 0 }
  function ActiveChunkCount(r: Record): nat { if r.deleted then 0 else |Chunking.Chunks(Latest(r).body)| }

  lemma OwnsOneObject(db: Db, m: EntryMap, o: Id)
    requires WellFormedEntries(m) && Holds(db.sourceObjects, m, SourceObjectOf) && o in m
    ensures |OwnedBy(db.sourceObjects.Keys, o)| == One(m[o].record)
  {
    assert WellFormedEntry(o, m[o]);
    assert Owner(SourceObjectId(o)) == o;
    assert OwnedBy(db.sourceObjects.Keys, o) == {SourceObjectId(o)};
  }

  lemma OwnsVersions(db: Db, m: EntryMap, o: Id)
    requires WellFormedEntries(m) && Holds(db.sourceVersions, m, SourceVersionOf) && o in m
    ensures |OwnedBy(db.sourceVersions.Keys, o)| == VersionCount(m[o].record)
  {
    hide WellFormedRecord;
    assert WellFormedEntry(o, m[o]);
    var n := |m[o].record.versions|;
    var s := OwnedBy(db.sourceVersions.Keys, o);
    var f := (v: int) => SourceVersionId(o, v);
    forall v | 1 <= v <= n
      ensures f(v) in s
    {
      assert Owner(SourceVersionId(o, v)) == o;
    }
    forall k | k in s
      ensures exists v :: 1 <= v <= n && f(v) == k
    {
      assert f(k.version) == k;
    }
    CountNumbered(s, f, n);
  }

  lemma OwnsAmbiguous(db: Db, m: EntryMap, o: Id)
    requires WellFormedEntries(m) && Holds(db.candidates, m, CandidateOf) && o in m
    ensures |OwnedBy(AmbiguousCandidates(db), o)| == AmbiguityCount(m[o].record)
  {
    var r := m[o].record;
    assert WellFormedEntry(o, m[o]);
    var a, b := CandidateId(o, ClientRef, r.canonicalClientId), CandidateId(o, ProjectRef, r.canonicalProjectId);
    assert Owner(a) == o && Owner(b) == o;
    if r.ambiguousAlias {
      assert OwnedBy(AmbiguousCandidates(db), o) == {a, b};
    } else {
      assert OwnedBy(AmbiguousCandidates(db), o) == {};
    }
  }

  lemma ActiveDocumentKey(o: Id, e: Entry, c: int)
    requires WellFormedEntry(o, e) && !e.record.deleted
    ensures var k := if e.base == |e.record.versions| then DocumentId(o, c)
                     else DocumentUpdateId(o, |e.record.versions|, c);
            Owner(k) == o && (0 <= c < |Chunking.Chunks(Latest(e.record).body)| ==>
                                DocumentOf(e, k).Some? && DocumentOf(e, k).value.active)
  {
    hide Chunking.Chunks;
  }

  lemma DocumentChunk(o: Id, e: Entry, k: Id)
    requires WellFormedEntry(o, e) && DocumentOf(e, k).Some? && DocumentOf(e, k).value.active
    ensures 0 <= k.chunk < |Chunking.Chunks(Latest(e.record).body)|
  {
    hide Chunking.Chunks;
  }

  lemma OwnsActiveDocuments(db: Db, m: EntryMap, o: Id)
    requires WellFormedEntries(m) && Holds(db.documents, m, DocumentOf) && o in m
    ensures |OwnedBy(ActiveDocuments(db), o)| == ActiveChunkCount(m[o].record)
  {
    hide WellFormedEntry, DocumentOf, Owner, Chunking.Chunks, AssertionOf;
    var e := m[o];
    var s := OwnedBy(ActiveDocuments(db), o);
    if e.record.deleted {
      forall k | k in s
        ensures false
      {
        DocumentRefers(o, e, k);
      }
      assert s == {};
    } else {
      var n := |Chunking.Chunks(Latest(e.record).body)|;
      var f := (v: int) => if e.base == |e.record.versions| then DocumentId(o, v - 1)
          else DocumentUpdateId(o, |e.record.versions|, v - 1);
      forall v | 1 <= v <= n
        ensures f(v) in s
      {
        ActiveDocumentKey(o, e, v - 1);
      }
      forall k | k in s
        ensures exists v :: 1 <= v <= n && f(v) == k
      {
        DocumentRefers(o, e, k);
        DocumentChunk(o, e, k);
        assert f(k.chunk + 1) == k;
      }
      CountNumbered(s, f, n);
    }
  }

  function MultiChunkCount(r: Record): nat { if ActiveChunkCount(r) > 1 then 1 else 0 }

  lemma DocumentsOfRecord(db: Db, m: EntryMap, o: Id)
    requires WellFormedEntries(m) && Holds(db.documents, m, DocumentOf)
    ensures forall k :: k in ActiveDocuments(db) ==>
                          db.documents[k].resourceId == EvidenceResource(Owner(k)) && Owner(k) in m
    ensures ActiveDocumentsOf(db, EvidenceResource(o)) == OwnedBy(ActiveDocuments(db), o)
  {
    hide WellFormedEntry, DocumentOf, Owner, AssertionOf;
    forall k | k in ActiveDocuments(db)
      ensures db.documents[k].resourceId == EvidenceResource(Owner(k)) && Owner(k) in m
    {
      DocumentRefers(Owner(k), m[Owner(k)], k);
    }
  }

  lemma OwnerOfEvidence(o: Id)
    ensures Owner(EvidenceResource(o)) == o
  {
  }

  lemma MultiChunkIs(db: Db, m: EntryMap, o: Id)
    requires WellFormedEntries(m) && Holds(db.documents, m, DocumentOf) && o in m
    ensures EvidenceResource(o) in MultiChunkResources(db) <==> ActiveChunkCount(m[o].record) > 1
  {
    hide WellFormedEntries, Holds, Owner, ActiveChunkCount, OwnedBy, ActiveDocumentsOf, ActiveDocuments;
    DocumentsOfRecord(db, m, o);
    OwnsActiveDocuments(db, m, o);
    var own := ActiveDocumentsOf(db, EvidenceResource(o));
    if |own| > 1 {
      SomeMember(own);
      var k :| k in own;
      DocumentsNamed(db, EvidenceResource(o), k);
    }
  }

  lemma SomeMember(s: set<Id>)
    requires |s| > 1
    ensures exists k :: k in s
  {
    if s == {} {
      assert false;
    }
  }

  lemma DocumentsNamed(db: Db, resource: Id, k: Id)
    requires k in ActiveDocumentsOf(db, resource)
    ensures k in ActiveDocuments(db) && db.documents[k].resourceId == resource
  {
  }

  lemma MultiChunksOwned(db: Db, m: EntryMap)
    requires WellFormedEntries(m) && Holds(db.documents, m, DocumentOf)
    ensures forall r :: r in MultiChunkResources(db) ==> r.EvidenceResource? && r.record in m && Owner(r) == r.record
  {
    hide WellFormedEntries, Holds, ActiveDocumentsOf, ActiveDocuments;
    forall r | r in MultiChunkResources(db)
      ensures r.EvidenceResource? && r.record in m && Owner(r) == r.record
    {
      DocumentsOfRecord(db, m, r);
    }
  }

  lemma OwnsMultiChunk(db: Db, m: EntryMap, o: Id)
    requires WellFormedEntries(m) && Holds(db.documents, m, DocumentOf) && o in m
    ensures |OwnedBy(MultiChunkResources(db), o)| == MultiChunkCount(m[o].record)
  {
    hide WellFormedEntries, Holds, Owner, ActiveChunkCount, MultiChunkResources;
    MultiChunkIs(db, m, o);
    MultiChunksOwned(db, m);
    OwnerOfEvidence(o);
    var s := OwnedBy(MultiChunkResources(db), o);
    if ActiveChunkCount(m[o].record) > 1 {
      assert s == {EvidenceResource(o)};
    } else {
      assert s == {};
    }
  }

  /** The identity keys named by records whose aliases are not shared. */
  function PromotedIds(rs: seq<Record>): set<Id> {
    set p | p in Flat(rs, PromotedPairs) :: p.0
  }

  lemma KeysArePromoted(t: Table<IdentityKey>, m: EntryMap, rs: seq<Record>)
    requires HoldsKeys(t, m, rs)
    ensures t.Keys == PromotedIds(rs)
  {
    hide Flat, FromPairs;
    var pairs := Flat(rs, PromotedPairs);
    forall k
      ensures k in t.Keys <==> k in PromotedIds(rs)
    {
      GetFromPairs(pairs, k);
    }
  }

  lemma TrackedKeys(db: Db, m: EntryMap, rs: seq<Record>)
    requires Tracks(db, m, rs)
    ensures HoldsKeys(db.identityKeys, m, rs) && WellFormedEntries(m) && Holds(db.documents, m, DocumentOf)
            && EntriesOf(m, rs)
  {
  }

  lemma MultiChunksCounted(db: Db, m: EntryMap, rs: seq<Record>)
    requires Tracks(db, m, rs)
    ensures |MultiChunkResources(db)| == Total(rs, MultiChunkCount)
  {
    hide Tracks, Holds, HoldsKeys, WellFormedEntries, OwnedBy, Total, MultiChunkCount, WellFormedRecord, Owner,
      MultiChunkResources;
    TrackedKeys(db, m, rs);
    KeyOwners(db.documents, m, DocumentOf, rs);
    MultiChunksOwned(db, m);
    ByIdKeys(rs);
    forall i | 0 <= i < |rs|
      ensures |OwnedBy(MultiChunkResources(db), rs[i].id)| == MultiChunkCount(rs[i])
    {
      OwnsMultiChunk(db, m, rs[i].id);
    }
    CountByOwner(MultiChunkResources(db), rs, MultiChunkCount);
  }

  // ---- The invariants

  lemma NoActiveDeleted(db: Db, m: EntryMap, rs: seq<Record>)
    requires Tracks(db, m, rs)
    ensures ActiveDeleted(db) == {}
  {
    hide HoldsKeys, EntriesOf, SharedRows, WellFormedEntry, DocumentOf, ResourceOf, Owner, AssertionOf, VersionOf;
    forall k | k in db.documents && db.documents[k].active
      ensures db.documents[k].resourceId in db.resources ==>
                db.resources[db.documents[k].resourceId].status == ActiveStatus
    {
      var o := Owner(k);
      DocumentRefers(o, m[o], k);
      EvidenceStatus(o, m[o]);
    }
  }

  lemma EvidenceStatus(o: Id, e: Entry)
    requires WellFormedEntry(o, e)
    ensures Owner(EvidenceResource(o)) == o && ResourceOf(e, EvidenceResource(o)).Some?
    ensures ResourceOf(e, EvidenceResource(o)).value.status == StatusOf(e.record.deleted)
  {
  }

  lemma NoStaleDocuments(db: Db, m: EntryMap, rs: seq<Record>)
    requires Tracks(db, m, rs)
    ensures StaleDocuments(db) == {}
  {
    hide HoldsBeside, HoldsKeys, EntriesOf, SharedRows, WellFormedEntry, DocumentOf, ContentVersionOf, Owner,
      AssertionOf, VersionOf;
    forall k | k in db.documents && db.documents[k].active && db.documents[k].contentVersionId in db.contentVersions
      ensures db.contentVersions[db.documents[k].contentVersionId].isCurrent
    {
      var o := Owner(k);
      DocumentRefers(o, m[o], k);
      LatestIsCurrent(o, m[o]);
    }
  }

  lemma LatestIsCurrent(o: Id, e: Entry)
    requires WellFormedEntry(o, e)
    ensures var k := ContentVersionId(o, |e.record.versions|);
            Owner(k) == o && ContentVersionOf(e, k).Some? && ContentVersionOf(e, k).value.isCurrent
  {
  }

  lemma NoVersionViolations(db: Db, m: EntryMap, rs: seq<Record>)
    requires Tracks(db, m, rs)
    ensures CurrentVersionViolations(db) == {}
  {
    hide HoldsBeside, HoldsKeys, EntriesOf, SharedRows, WellFormedEntry, DocumentOf, ContentVersionOf,
      ContentObjectOf, Owner, AssertionOf,
      SourceVersionOf, RelationshipFor, CandidateOf;
    forall k | k in db.contentObjects
      ensures db.contentObjects[k].currentVersionId.Some?
      ensures db.contentObjects[k].currentVersionId.value in db.contentVersions
      ensures db.contentVersions[db.contentObjects[k].currentVersionId.value].isCurrent
    {
      var o := Owner(k);
      RowRefers(o, m[o], k);
      LatestIsCurrent(o, m[o]);
    }
  }

  lemma KeyOwners<T(!new)>(t: Table<T>, m: EntryMap, row: (Entry, Id) -> Option<T>, rs: seq<Record>)
    requires Holds(t, m, row) && EntriesOf(m, rs)
    ensures forall k :: k in t ==> exists i :: 0 <= i < |rs| && rs[i].id == Owner(k)
    ensures forall i :: 0 <= i < |rs| ==> rs[i].id in m && m[rs[i].id].record == rs[i]
  {
    hide WellFormedRecord;
    ByIdKeys(rs);
    forall i | 0 <= i < |rs|
      ensures rs[i].id in m && m[rs[i].id].record == rs[i]
    {
      ByIdAt(rs, i);
    }
  }

  /** A clean inspection: no violation, and counts that are those of the records. */
  ghost predicate Sound(i: Integrity, rs: seq<Record>) {
    && i.activeDeletedRecords == 0 && i.staleSearchDocuments == 0 && i.currentVersionViolations == 0
    && i.logicalRecords == |rs|
    && i.immutableVersions == Total(rs, VersionCount)
    && i.ambiguousCandidates == Total(rs, AmbiguityCount)
    && i.activeSearchChunks == Total(rs, ActiveChunkCount)
    && i.searchChunks == i.activeSearchChunks + i.inactiveSearchChunks
    && i.multiChunkResources == Total(rs, MultiChunkCount)
    && i.resolvedKeys == |PromotedIds(rs)|
  }

  /** Integrity over whole runs: the inspection finds no deleted, stale or dangling entry, and its counts
      are the counts of the records. */
  lemma IntegrityHolds(db: Db, m: EntryMap, rs: seq<Record>)
    requires Tracks(db, m, rs)
    ensures Sound(Inspect(db), rs)
  {
    hide Tracks, Total, ActiveDeleted, StaleDocuments, CurrentVersionViolations, AmbiguousCandidates, ActiveDocuments,
      InactiveDocuments, MultiChunkResources, PromotedIds, HoldsKeys, Holds, WellFormedEntries, EntriesOf;
    TrackedKeys(db, m, rs);
    KeysArePromoted(db.identityKeys, m, rs);
    MultiChunksCounted(db, m, rs);
    NoActiveDeleted(db, m, rs);
    NoStaleDocuments(db, m, rs);
    NoVersionViolations(db, m, rs);
    CountsHold(db, m, rs);
    TotalOfOnes(rs);
    ActiveOrInactive(db);
  }

  lemma ActiveOrInactive(db: Db)
    ensures |db.documents| == |ActiveDocuments(db)| + |InactiveDocuments(db)|
  {
    var a, b := ActiveDocuments(db), InactiveDocuments(db);
    assert db.documents.Keys == a + b && a !! b;
  }

  lemma {:induction false} TotalOfOnes(rs: seq<Record>)
    ensures Total(rs, One) == |rs|
  {
    if rs != [] {
      TotalOfOnes(DropLast(rs));
    }
  }

  lemma TablesCounted(db: Db, m: EntryMap, rs: seq<Record>)
    requires Tracks(db, m, rs)
    ensures |db.sourceObjects| == Total(rs, One) && |db.sourceVersions| == Total(rs, VersionCount)
  {
    hide Tracks, Holds, WellFormedEntries, WellFormedRecord, ById, OwnedBy, Total, One, VersionCount, Owner;
    TrackedEntries(db, m, rs);
    TrackedSources(db, m, rs);
    KeyOwners(db.sourceObjects, m, SourceObjectOf, rs);
    KeyOwners(db.sourceVersions, m, SourceVersionOf, rs);
    forall i | 0 <= i < |rs|
      ensures |OwnedBy(db.sourceObjects.Keys, rs[i].id)| == One(rs[i])
      ensures |OwnedBy(db.sourceVersions.Keys, rs[i].id)| == VersionCount(rs[i])
    {
      OwnsOneObject(db, m, rs[i].id);
      OwnsVersions(db, m, rs[i].id);
    }
    CountByOwner(db.sourceObjects.Keys, rs, One);
    CountByOwner(db.sourceVersions.Keys, rs, VersionCount);
  }

  lemma TrackedRows(db: Db, m: EntryMap, rs: seq<Record>)
    requires Tracks(db, m, rs)
    ensures Holds(db.candidates, m, CandidateOf) && Holds(db.documents, m, DocumentOf)
  {
  }

  lemma CountedRowsExist(db: Db)
    ensures AmbiguousCandidates(db) <= db.candidates.Keys && ActiveDocuments(db) <= db.documents.Keys
  {
  }

  lemma CountsHold(db: Db, m: EntryMap, rs: seq<Record>)
    requires Tracks(db, m, rs)
    ensures |db.sourceObjects| == Total(rs, One) && |db.sourceVersions| == Total(rs, VersionCount)
    ensures |AmbiguousCandidates(db)| == Total(rs, AmbiguityCount)
    ensures |ActiveDocuments(db)| == Total(rs, ActiveChunkCount)
  {
    hide Tracks, Holds, WellFormedEntries, WellFormedRecord, ById, OwnedBy, Total, One, VersionCount, AmbiguityCount,
      ActiveChunkCount, Owner, AmbiguousCandidates, ActiveDocuments;
    TablesCounted(db, m, rs);
    TrackedEntries(db, m, rs);
    TrackedRows(db, m, rs);
    CountedRowsExist(db);
    KeyOwners(db.candidates, m, CandidateOf, rs);
    KeyOwners(db.documents, m, DocumentOf, rs);
    forall i | 0 <= i < |rs|
      ensures |OwnedBy(AmbiguousCandidates(db), rs[i].id)| == AmbiguityCount(rs[i])
      ensures |OwnedBy(ActiveDocuments(db), rs[i].id)| == ActiveChunkCount(rs[i])
    {
      OwnsAmbiguous(db, m, rs[i].id);
      OwnsActiveDocuments(db, m, rs[i].id);
    }
    CountByOwner(AmbiguousCandidates(db), rs, AmbiguityCount);
    CountByOwner(ActiveDocuments(db), rs, ActiveChunkCount);
  }

  // ---- What the inspection detects, in any database

  /** No active document belongs to a deleted resource. */
  ghost predicate NothingDeletedIsActive(db: Db) {
    forall k :: k in db.documents && db.documents[k].active && db.documents[k].resourceId in db.resources ==>
                  db.resources[db.documents[k].resourceId].status == ActiveStatus
  }

  /** No active document cites a content version that is not current. */
  ghost predicate NothingStaleIsActive(db: Db) {
    forall k :: k in db.documents && db.documents[k].active
                && db.documents[k].contentVersionId in db.contentVersions ==>
                  db.contentVersions[db.documents[k].contentVersionId].isCurrent
  }

  /** Every content object that is a resource points at a current version. */
  ghost predicate PointersAreCurrent(db: Db) {
    forall k :: k in db.contentObjects && k in db.resources ==> PointsAtCurrent(db, db.contentObjects[k])
  }

  predicate PointsAtCurrent(db: Db, c: ContentObject) {
    && c.currentVersionId.Some? && c.currentVersionId.value in db.contentVersions
    && db.contentVersions[c.currentVersionId.value].isCurrent
  }

  predicate AreChunksOfOne(db: Db, j: Id, k: Id) {
    && j in db.documents && k in db.documents && j != k && db.documents[j].active && db.documents[k].active
    && db.documents[j].resourceId == db.documents[k].resourceId
  }

  lemma EmptyOrNot(s: set<Id>)
    ensures |s| == 0 <==> s == {}
  {
    if |s| == 0 {
      assert s == {};
    }
  }

  lemma DeletedDetected(db: Db)
    ensures ActiveDeleted(db) == {} <==> NothingDeletedIsActive(db)
  {
    if ActiveDeleted(db) == {} {
      forall k | k in db.documents && db.documents[k].active && db.documents[k].resourceId in db.resources
        ensures db.resources[db.documents[k].resourceId].status == ActiveStatus
      {
        assert k !in ActiveDeleted(db);
      }
    }
  }

  lemma StaleDetected(db: Db)
    ensures StaleDocuments(db) == {} <==> NothingStaleIsActive(db)
  {
    if StaleDocuments(db) == {} {
      forall k | k in db.documents && db.documents[k].active && db.documents[k].contentVersionId in db.contentVersions
        ensures db.contentVersions[db.documents[k].contentVersionId].isCurrent
      {
        assert k !in StaleDocuments(db);
      }
    }
  }

  lemma PointersDetected(db: Db)
    ensures CurrentVersionViolations(db) == {} <==> PointersAreCurrent(db)
  {
    if CurrentVersionViolations(db) == {} {
      forall k | k in db.contentObjects && k in db.resources
        ensures PointsAtCurrent(db, db.contentObjects[k])
      {
        assert k !in CurrentVersionViolations(db);
      }
    }
  }

  lemma ChunksDetected(db: Db)
    ensures |ActiveDocuments(db)| + |InactiveDocuments(db)| == |db.documents|
    ensures MultiChunkResources(db) == {} <==> !exists j, k :: AreChunksOfOne(db, j, k)
  {
    var on, off := ActiveDocuments(db), InactiveDocuments(db);
    assert on + off == db.documents.Keys && on !! off;
    if j, k :| AreChunksOfOne(db, j, k) {
      var several := ActiveDocumentsOf(db, db.documents[j].resourceId);
      SubsetCount({j, k}, several);
      assert db.documents[j].resourceId in MultiChunkResources(db);
    }
    if r :| r in MultiChunkResources(db) {
      var several := ActiveDocumentsOf(db, r);
      var j :| j in several;
      var others := several - {j};
      assert |others| == |several| - 1;
      var k :| k in others;
      assert AreChunksOfOne(db, j, k);
    }
  }

  /** In any database, described or not: the three violation counts are 0 exactly when there is no violation, the
      other figures count the rows of their tables, and there is a resource of several chunks exactly when two active
      documents share one. */
  lemma InspectionDetects(db: Db)
    ensures var i := Inspect(db);
            && (i.activeDeletedRecords == 0 <==> NothingDeletedIsActive(db))
            && (i.staleSearchDocuments == 0 <==> NothingStaleIsActive(db))
            && (i.currentVersionViolations == 0 <==> PointersAreCurrent(db))
            && i.logicalRecords == |db.sourceObjects| && i.immutableVersions == |db.sourceVersions|
            && i.searchChunks == |db.documents| && i.resolvedKeys == |db.identityKeys|
            && i.activeSearchChunks + i.inactiveSearchChunks == |db.documents|
            && (i.multiChunkResources == 0 <==> !exists j, k :: AreChunksOfOne(db, j, k))
  {
    DeletedDetected(db);
    StaleDetected(db);
    PointersDetected(db);
    ChunksDetected(db);
    EmptyOrNot(ActiveDeleted(db));
    EmptyOrNot(StaleDocuments(db));
    EmptyOrNot(CurrentVersionViolations(db));
    EmptyOrNot(MultiChunkResources(db));
    hide ActiveDeleted, StaleDocuments, CurrentVersionViolations, AmbiguousCandidates, MultiChunkResources,
      ActiveDocuments, InactiveDocuments, AreChunksOfOne;
  }
}
