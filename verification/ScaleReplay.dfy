/** Replaying a batch: from any state, applying it twice in a row is applying it once. */
module ScaleReplay {
  import opened Prelude
  import opened Corpus
  import opened Statements
  import opened RecordRows
  import opened ScaleTables
  import opened ScaleSchema

  /** A current embedding belongs to an active document. */
  ghost predicate EmbeddingsCurrent(embeddings: map<nat, Embedding>, documents: Table<Document>) {
    forall e :: e in embeddings && embeddings[e].isCurrent ==>
                  embeddings[e].documentId in documents && documents[embeddings[e].documentId].active
  }

  // ---- Statements that repeat without effect

  lemma UpdatedTwice<T(!new), P(!new)>(t: Table<T>, rows: seq<Row<P>>, join: (Id, T) -> Id, assign: (T, P) -> T)
    requires forall k, x, p :: join(k, assign(x, p)) == join(k, x)
    requires forall x, p :: assign(assign(x, p), p) == assign(x, p)
    ensures var u := Updated(t, rows, join, assign); Updated(u, rows, join, assign) == u
  {
    var u := Updated(t, rows, join, assign);
    forall k | k in t
      ensures Updated(u, rows, join, assign)[k] == u[k]
    {
      assert join(k, u[k]) == join(k, t[k]);
    }
  }

  lemma InsertedTwice<T>(t: Table<T>, rows: seq<Row<T>>)
    ensures Inserted(Inserted(t, rows), rows) == Inserted(t, rows)
  {
  }

  /** What the two statements `UPDATE .. ; INSERT .. ON CONFLICT DO UPDATE` must satisfy to be repeatable:
      the upsert undoes whatever the update did to a row it has written. */
  ghost predicate Restores<T(!new), P(!new)>(join: (Id, T) -> Id, assign: (T, P) -> T, onConflict: (T, T) -> T,
                                             isNew: T -> bool) {
    && (forall k, x, p :: join(k, assign(x, p)) == join(k, x))
    && (forall x, p :: assign(assign(x, p), p) == assign(x, p))
    && (forall x, y, p :: isNew(y) ==> onConflict(assign(onConflict(x, y), p), y) == onConflict(x, y))
    && (forall x, y :: isNew(y) ==> onConflict(onConflict(x, y), y) == onConflict(x, y))
    && (forall y, p :: isNew(y) ==> onConflict(assign(y, p), y) == y)
    && (forall y :: isNew(y) ==> onConflict(y, y) == y)
  }

  lemma WrittenTwiceAt<T(!new), P(!new)>(t: Table<T>, keys: seq<Row<P>>, join: (Id, T) -> Id, assign: (T, P) -> T,
                                         rows: seq<Row<T>>, onConflict: (T, T) -> T, isNew: T -> bool, k: Id)
    requires Restores(join, assign, onConflict, isNew)
    requires forall i :: 0 <= i < |rows| ==> isNew(rows[i].val)
    requires k in Written(Updated(t, keys, join, assign), rows, Same, onConflict)
    ensures var once := Written(Updated(t, keys, join, assign), rows, Same, onConflict);
            Written(Updated(once, keys, join, assign), rows, Same, onConflict)[k] == once[k]
  {
    var u := Updated(t, keys, join, assign);
    var once := Written(u, rows, Same, onConflict);
    FindKeys(rows);
    FindMember(rows, k);
    if Find(rows, k).None? {
      assert once[k] == u[k] && join(k, u[k]) == join(k, t[k]);
    } else {
      var y := Find(rows, k).value;
      assert isNew(y);
      assert once[k] == y || exists x :: once[k] == onConflict(x, y);
    }
  }

  lemma WrittenTwice<T(!new), P(!new)>(t: Table<T>, keys: seq<Row<P>>, join: (Id, T) -> Id, assign: (T, P) -> T,
                                       rows: seq<Row<T>>, onConflict: (T, T) -> T, isNew: T -> bool)
    requires Restores(join, assign, onConflict, isNew)
    requires forall i :: 0 <= i < |rows| ==> isNew(rows[i].val)
    ensures var once := Written(Updated(t, keys, join, assign), rows, Same, onConflict);
            Written(Updated(once, keys, join, assign), rows, Same, onConflict) == once
  {
    var once := Written(Updated(t, keys, join, assign), rows, Same, onConflict);
    forall k | k in once
      ensures Written(Updated(once, keys, join, assign), rows, Same, onConflict)[k] == once[k]
    {
      WrittenTwiceAt(t, keys, join, assign, rows, onConflict, isNew, k);
    }
  }

  // ---- The tables of a batch, one by one

  lemma ObjectsTwice(db: Db, b: UpdateBatch)
    ensures var d := Apply(db, b); Apply(d, b).sourceObjects == d.sourceObjects && Apply(d, b).resources == d.resources
    ensures var d := Apply(db, b); Apply(d, b).contentObjects == d.contentObjects
    ensures var d := Apply(db, b); Apply(d, b).sourceVersions == d.sourceVersions
    ensures var d := Apply(db, b); Apply(d, b).provenance == d.provenance
  {
    hide Written, Updated, Flat, Revisions, Inserted;
    var revisions := Revisions(b.records);
    UpdatedTwice(db.sourceObjects, Flat(b.records, SourceObjectPatchRows), UPDATE_SOURCE_OBJECTS.join,
                 UPDATE_SOURCE_OBJECTS.assign);
    UpdatedTwice(db.resources, Flat(b.records, ResourcePatchRows), UPDATE_RESOURCES.join, UPDATE_RESOURCES.assign);
    UpdatedTwice(db.contentObjects, Flat(revisions, PointerRows), SET_CURRENT_VERSION.join, SET_CURRENT_VERSION.assign);
    InsertedTwice(db.sourceVersions, Flat(revisions, NewSourceVersionRows));
    InsertedTwice(db.provenance, Flat(revisions, NewProvenanceRows));
  }

  lemma IdentitiesTwice(db: Db, b: UpdateBatch)
    ensures var d := Apply(db, b); Apply(d, b).candidates == d.candidates && Apply(d, b).identityKeys == d.identityKeys
    ensures var d := Apply(db, b); Apply(d, b).sources == d.sources
  {
    hide Written, Updated, Flat, Revisions, IdentityKeyPatchRows, CursorRows;
    var revisions := Revisions(b.records);
    UpdatedTwice(db.candidates, Flat(revisions, CandidatePatchRows), UPDATE_CANDIDATES.join, UPDATE_CANDIDATES.assign);
    UpdatedTwice(db.identityKeys, IdentityKeyPatchRows(revisions), UPDATE_IDENTITY_KEYS.join,
                 UPDATE_IDENTITY_KEYS.assign);
    UpdatedTwice(db.sources, CursorRows(b), ADVANCE_SOURCES.join, ADVANCE_SOURCES.assign);
  }

  lemma SyncRunsTwice(db: Db, b: UpdateBatch)
    ensures ApplySyncRuns(ApplySyncRuns(db.syncRuns, b), b) == ApplySyncRuns(db.syncRuns, b)
  {
    hide NewSyncRunRows;
    var rows := NewSyncRunRows(b);
    var once := ApplySyncRuns(db.syncRuns, b);
    FindKeys(rows);
    forall k | k in once
      ensures ApplySyncRuns(once, b)[k] == once[k]
    {
      assert Find(rows, k).Some? ==>
          once[k] == Find(rows, k).value || once[k] == ADD_SYNC_RUNS.onConflict(db.syncRuns[k], Find(rows, k).value);
    }
  }

  lemma {:induction false} FreshRows(revisions: seq<Record>)
    ensures forall i :: 0 <= i < |Flat(revisions, NewContentVersionRows)| ==>
                          IsCurrent(Flat(revisions, NewContentVersionRows)[i].val)
    ensures forall i :: 0 <= i < |Flat(revisions, NewAssertionRows)| ==>
                          IsOpen(Flat(revisions, NewAssertionRows)[i].val)
    ensures forall i :: 0 <= i < |Flat(revisions, NewDocumentRows)| ==>
                          IsActive(Flat(revisions, NewDocumentRows)[i].val)
    decreases |revisions|
  {
    if revisions != [] {
      FreshRows(revisions[1..]);
    }
  }

  predicate IsCurrent(v: ContentVersion) { v.isCurrent }
  predicate IsOpen(a: Assertion) { a.validTo == None }
  predicate IsActive(d: Document) { d.active }

  lemma ContentVersionsTwice(t: Table<ContentVersion>, revisions: seq<Record>)
    ensures var u := ApplyContentVersions(t, revisions); ApplyContentVersions(u, revisions) == u
  {
    hide Flat, Written, Updated;
    FreshRows(revisions);
    WrittenTwice(t, Flat(revisions, ContentKeyRows), RETIRE_CONTENT_VERSIONS.join, RETIRE_CONTENT_VERSIONS.assign,
                 Flat(revisions, NewContentVersionRows), ADD_CONTENT_VERSIONS.onConflict, IsCurrent);
  }

  lemma AssertionsTwice(t: Table<Assertion>, revisions: seq<Record>)
    ensures var u := ApplyAssertions(t, revisions); ApplyAssertions(u, revisions) == u
  {
    hide Flat, Written, Updated;
    FreshRows(revisions);
    WrittenTwice(t, Flat(revisions, CloseRows), CLOSE_ASSERTIONS.join, CLOSE_ASSERTIONS.assign,
                 Flat(revisions, NewAssertionRows), ADD_ASSERTIONS.onConflict, IsOpen);
  }

  lemma DocumentsTwice(t: Table<Document>, rs: seq<Record>, revisions: seq<Record>)
    ensures var u := Reindex(Deactivate(t, rs), revisions); Reindex(Deactivate(u, rs), revisions) == u
  {
    hide Flat, Written, Updated;
    FreshRows(revisions);
    WrittenTwice(t, Flat(rs, EvidenceKeyRows), DEACTIVATE_DOCUMENTS.join, DEACTIVATE_DOCUMENTS.assign,
                 Flat(revisions, NewDocumentRows), ADD_DOCUMENTS.onConflict, IsActive);
  }

  // ---- Embeddings

  /** After any batch, whatever was indexed before it, current embeddings belong to active documents. */
  lemma BatchKeepsEmbeddingsCurrent(db: Db, b: UpdateBatch)
    requires EmbeddingsRefer(db.embeddings, db.documents)
    ensures EmbeddingsRefer(Apply(db, b).embeddings, Apply(db, b).documents)
    ensures EmbeddingsCurrent(Apply(db, b).embeddings, Apply(db, b).documents)
  {
    hide Deactivate, Reindex, Revisions;
    var inactive := Deactivate(db.documents, b.records);
    DeactivateKeys(db.documents, b.records);
    ReindexKeepsActive(inactive, Revisions(b.records));
  }

  lemma ReindexKeepsActive(t: Table<Document>, revisions: seq<Record>)
    ensures forall k :: k in t ==> k in Reindex(t, revisions)
    ensures forall k :: k in t && t[k].active ==> Reindex(t, revisions)[k].active
    ensures forall k :: k in t ==> Reindex(t, revisions)[k].resourceId == t[k].resourceId
  {
  }

  lemma DeactivatedAt(documents: Table<Document>, rs: seq<Record>, d: Id)
    requires d in documents
    ensures Deactivate(documents, rs)[d].active <==>
            documents[d].active && !exists i :: 0 <= i < |rs| && documents[d].resourceId == EvidenceResource(rs[i].id)
  {
    hide Flat, Keys;
    FindKeys(Flat(rs, EvidenceKeyRows));
    EvidenceKeys(rs, documents[d].resourceId);
  }

  /** Retiring a changed record's documents retires exactly the embeddings of those documents. */
  lemma RetiredEmbeddings(documents: Table<Document>, rs: seq<Record>, embeddings: map<nat, Embedding>)
    requires EmbeddingsRefer(embeddings, documents) && EmbeddingsCurrent(embeddings, documents)
    ensures RetireEmbeddings(embeddings, Deactivate(documents, rs)) == WithoutChanged(documents, rs, embeddings)
  {
    hide Deactivate;
    assert Deactivate(documents, rs).Keys == documents.Keys by { DeactivateKeys(documents, rs); }
    forall e | e in embeddings
      ensures RetireEmbeddings(embeddings, Deactivate(documents, rs))[e] == WithoutChanged(documents, rs, embeddings)[e]
    {
      DeactivatedAt(documents, rs, embeddings[e].documentId);
    }
  }

  lemma DeactivateKeys(documents: Table<Document>, rs: seq<Record>)
    ensures Deactivate(documents, rs).Keys == documents.Keys
  {
  }

  function WithoutChanged(documents: Table<Document>, rs: seq<Record>, embeddings: map<nat, Embedding>)
    : map<nat, Embedding>
  {
    map e | e in embeddings ::
      if OfChangedRecord(documents, embeddings[e], rs) then embeddings[e].(isCurrent := false) else embeddings[e]
  }

  predicate OfChangedRecord(documents: Table<Document>, e: Embedding, rs: seq<Record>) {
    && e.documentId in documents
    && exists i :: 0 <= i < |rs| && documents[e.documentId].resourceId == EvidenceResource(rs[i].id)
  }

  lemma {:induction false} EvidenceKeys(rs: seq<Record>, k: Id)
    ensures k in Keys(Flat(rs, EvidenceKeyRows)) <==> exists i :: 0 <= i < |rs| && k == EvidenceResource(rs[i].id)
    decreases |rs|
  {
    if rs != [] {
      EvidenceKeys(rs[1..], k);
      KeysAppend(EvidenceKeyRows(rs[0]), Flat(rs[1..], EvidenceKeyRows));
      assert EvidenceKeyRows(rs[0])[1..] == [];
      if i :| 0 <= i < |rs| && k == EvidenceResource(rs[i].id) && i > 0 {
        assert k == EvidenceResource(rs[1..][i - 1].id);
      }
      if i :| 0 <= i < |rs[1..]| && k == EvidenceResource(rs[1..][i].id) {
        assert k == EvidenceResource(rs[i + 1].id);
      }
    }
  }

  lemma EmbeddingsTwice(embeddings: map<nat, Embedding>, t: Table<Document>, b: UpdateBatch)
    requires EmbeddingsRefer(embeddings, t)
    ensures var inactive := Deactivate(t, b.records);
            var once := RetireEmbeddings(embeddings, inactive);
            RetireEmbeddings(once, Deactivate(Reindex(inactive, Revisions(b.records)), b.records)) == once
  {
    hide Deactivate, Reindex, Revisions;
    DeactivateKeys(t, b.records);
    forall e | e in embeddings
      ensures var reindexed := Reindex(Deactivate(t, b.records), Revisions(b.records));
              var d := embeddings[e].documentId;
              d in Deactivate(reindexed, b.records)
              && (Deactivate(t, b.records)[d].active ==> Deactivate(reindexed, b.records)[d].active)
    {
      StaysActive(t, b, embeddings[e].documentId);
    }
  }

  /** A document a batch leaves active without writing it is not touched by a replay either. */
  lemma StaysActive(t: Table<Document>, b: UpdateBatch, d: Id)
    requires d in t
    ensures var inactive := Deactivate(t, b.records);
            var reindexed := Reindex(inactive, Revisions(b.records));
            d in Deactivate(reindexed, b.records) && (inactive[d].active ==> Deactivate(reindexed, b.records)[d].active)
  {
    hide Flat, Keys, Revisions;
    ReindexKeepsActive(Deactivate(t, b.records), Revisions(b.records));
  }

  // ---- The whole batch

  /** Replay safety: the second application of a batch changes no table. */
  lemma ReplayIsIdempotent(db: Db, b: UpdateBatch)
    requires EmbeddingsRefer(db.embeddings, db.documents)
    ensures Apply(Apply(db, b), b) == Apply(db, b)
  {
    hide ApplySourceObjects, ApplyResources, Deactivate, RetireEmbeddings, ApplySourceVersions, ApplyContentVersions,
      ApplyContentObjects, ApplyAssertions, ApplyProvenance, Reindex, ApplyCandidates, ApplyIdentityKeys,
      ApplySources, ApplySyncRuns, Revisions, EmbeddingsRefer;
    ObjectsTwice(db, b);
    IdentitiesTwice(db, b);
    SyncRunsTwice(db, b);
    ContentVersionsTwice(db.contentVersions, Revisions(b.records));
    AssertionsTwice(db.assertions, Revisions(b.records));
    DocumentsTwice(db.documents, b.records, Revisions(b.records));
    EmbeddingsTwice(db.embeddings, db.documents, b);
  }

  /** With embeddings indexed between the two applications, the replay retires those of the changed
      records again and changes nothing else. */
  lemma ReplayAfterIndexing(db: Db, b: UpdateBatch, embeddings: map<nat, Embedding>)
    requires EmbeddingsRefer(db.embeddings, db.documents)
    requires EmbeddingsRefer(embeddings, Apply(db, b).documents)
             && EmbeddingsCurrent(embeddings, Apply(db, b).documents)
    ensures Apply(Apply(db, b).(embeddings := embeddings), b) ==
            Apply(db, b).(embeddings := WithoutChanged(Apply(db, b).documents, b.records, embeddings))
  {
    hide ApplySourceObjects, ApplyResources, Deactivate, RetireEmbeddings, ApplySourceVersions, ApplyContentVersions,
      ApplyContentObjects, ApplyAssertions, ApplyProvenance, Reindex, ApplyCandidates, ApplyIdentityKeys,
      ApplySources, ApplySyncRuns, Revisions, EmbeddingsRefer, EmbeddingsCurrent, WithoutChanged;
    ReplayIsIdempotent(db, b);
    RetiredEmbeddings(Apply(db, b).documents, b.records, embeddings);
  }
}
