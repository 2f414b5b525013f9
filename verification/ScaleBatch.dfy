/** An update batch takes a database described by its entries to the one described by the stepped entries. */
module ScaleBatch {
  import opened Prelude
  import opened Corpus
  import opened Statements
  import opened RecordRows
  import opened JsMap
  import opened ScaleTables
  import opened ScaleRows
  import opened ScaleState
  import opened ScaleIngest
  import Chunking

  /** A batch that fits the entries. */
  ghost predicate Ready(m: EntryMap, bs: seq<Record>) {
    WellFormedEntries(m) && StepsOf(m, bs)
  }

  /** One row of a table agrees with the entries. */
  ghost predicate RowHolds<T>(t: Table<T>, m: EntryMap, row: (Entry, Id) -> Option<T>, k: Id) {
    && (k in t <==> Owner(k) in m && row(m[Owner(k)], k).Some?)
    && (k in t ==> row(m[Owner(k)], k) == Some(t[k]))
  }

  lemma HoldsByRows<T(!new)>(t: Table<T>, m: EntryMap, row: (Entry, Id) -> Option<T>)
    requires forall k :: RowHolds(t, m, row, k)
    ensures Holds(t, m, row)
  {
    forall k
      ensures k in t <==> Owner(k) in m && row(m[Owner(k)], k).Some?
      ensures k in t ==> row(m[Owner(k)], k) == Some(t[k])
    {
      assert RowHolds(t, m, row, k);
    }
  }

  lemma RowsByHolds<T(!new)>(t: Table<T>, m: EntryMap, row: (Entry, Id) -> Option<T>, k: Id)
    requires Holds(t, m, row)
    ensures RowHolds(t, m, row, k)
  {
  }

  /** What a batch does to one entry. */
  ghost predicate EntryStep(m: EntryMap, bs: seq<Record>, o: Id, e: Entry, e': Entry) {
    && WellFormedEntry(o, e) && WellFormedEntry(o, e')
    && (o !in ById(bs) ==> e' == e)
    && (o in ById(bs) ==> StepOf(e.record, ById(bs)[o]) && e' == Entry(ById(bs)[o], e.base, true))
  }

  lemma StepEntry(m: EntryMap, bs: seq<Record>, o: Id)
    requires Ready(m, bs)
    ensures Stepped(m, bs).Keys == m.Keys
    ensures o !in m ==> o !in ById(bs)
    ensures o in m ==> EntryStep(m, bs, o, m[o], Stepped(m, bs)[o])
  {
    ByIdKeys(bs);
    if o in ById(bs) {
      var i :| 0 <= i < |bs| && bs[i].id == o;
      ByIdAt(bs, i);
      StepWellFormed(o, m[o], bs[i]);
    }
  }

  lemma StepWellFormed(k: Id, e: Entry, b: Record)
    requires WellFormedEntry(k, e) && StepOf(e.record, b)
    ensures WellFormedEntry(k, Entry(b, e.base, true))
  {
    if !b.deleted {
      forall v | e.base <= v < |b.versions|
        ensures b.versions[v].stance == b.versions[v - 1].stance
        ensures b.versions[v - 1].updatedAt < b.versions[v].updatedAt
      {
        if v == |b.versions| - 1 {
          assert b.versions[v] == Latest(b) && b.versions[v - 1] == Latest(e.record);
        }
      }
    }
  }

  lemma FindChanged<P>(bs: seq<Record>, g: Record -> seq<Row<P>>, k: Id)
    requires DistinctIds(bs) && Owned(g)
    ensures Find(Flat(bs, g), k) == if Owner(k) in ById(bs) then Find(g(ById(bs)[Owner(k)]), k) else None
  {
    FindFlat(bs, g, k);
  }

  lemma FindRevised<P>(bs: seq<Record>, g: Record -> seq<Row<P>>, k: Id)
    requires DistinctIds(bs) && Owned(g)
    ensures Find(Flat(Revisions(bs), g), k) ==
            if Owner(k) in ById(bs) && !ById(bs)[Owner(k)].deleted then Find(g(ById(bs)[Owner(k)]), k) else None
  {
    DistinctRevisions(bs);
    RevisionsById(bs, Owner(k));
    FindFlat(Revisions(bs), g, k);
  }

  lemma RevisionsById(bs: seq<Record>, o: Id)
    requires DistinctIds(bs)
    ensures o in ById(Revisions(bs)) <==> o in ById(bs) && !ById(bs)[o].deleted
    ensures o in ById(Revisions(bs)) ==> ById(Revisions(bs))[o] == ById(bs)[o]
  {
    DistinctRevisions(bs);
    ByIdKeys(bs);
    ByIdKeys(Revisions(bs));
    FilterMembers(bs, IsLive);
    if o in ById(Revisions(bs)) {
      var r := ById(Revisions(bs))[o];
      var i :| 0 <= i < |bs| && bs[i] == r;
      ByIdAt(bs, i);
    }
    if o in ById(bs) && !ById(bs)[o].deleted {
      var r := ById(bs)[o];
      var i :| 0 <= i < |Revisions(bs)| && Revisions(bs)[i] == r;
      assert Revisions(bs)[i].id == o;
    }
  }

  // ---- One key of each table

  lemma SourceObjectSteps(t: Table<SourceObject>, m: EntryMap, bs: seq<Record>, k: Id)
    requires Ready(m, bs) && RowHolds(t, m, SourceObjectOf, k)
    ensures RowHolds(ApplySourceObjects(t, bs), Stepped(m, bs), SourceObjectOf, k)
  {
    hide Flat, ById, Stepped, WellFormedEntries;
    OwnedBatchRows();
    StepEntry(m, bs, Owner(k));
    FindChanged(bs, SourceObjectPatchRows, k);
    if Owner(k) in ById(bs) {
      FindOne(SourceObjectPatchRows(ById(bs)[Owner(k)])[0], k);
    }
  }

  lemma SourceVersionSteps(t: Table<SourceVersion>, m: EntryMap, bs: seq<Record>, k: Id)
    requires Ready(m, bs) && RowHolds(t, m, SourceVersionOf, k)
    ensures RowHolds(ApplySourceVersions(t, Revisions(bs)), Stepped(m, bs), SourceVersionOf, k)
  {
    hide Flat, ById, Stepped, WellFormedEntries, Revisions;
    OwnedBatchRows();
    StepEntry(m, bs, Owner(k));
    FindKeys(Flat(Revisions(bs), NewSourceVersionRows));
    FindRevised(bs, NewSourceVersionRows, k);
    if Owner(k) in ById(bs) {
      FindOne(NewSourceVersionRows(ById(bs)[Owner(k)])[0], k);
    }
  }

  lemma ContentVersionSteps(t: Table<ContentVersion>, m: EntryMap, bs: seq<Record>, k: Id)
    requires Ready(m, bs) && RowHolds(t, m, ContentVersionOf, k)
    ensures RowHolds(ApplyContentVersions(t, Revisions(bs)), Stepped(m, bs), ContentVersionOf, k)
  {
    hide Flat, ById, Stepped, WellFormedEntries, Revisions;
    OwnedBatchRows();
    StepEntry(m, bs, Owner(k));
    FindKeys(Flat(Revisions(bs), NewContentVersionRows));
    FindRevised(bs, NewContentVersionRows, k);
    FindRevised(bs, ContentKeyRows, ContentResource(Owner(k)));
    if Owner(k) in ById(bs) {
      FindOne(NewContentVersionRows(ById(bs)[Owner(k)])[0], k);
      FindOne(ContentKeyRows(ById(bs)[Owner(k)])[0], ContentResource(Owner(k)));
    }
  }

  lemma ContentObjectSteps(t: Table<ContentObject>, m: EntryMap, bs: seq<Record>, k: Id)
    requires Ready(m, bs) && RowHolds(t, m, ContentObjectOf, k)
    ensures RowHolds(ApplyContentObjects(t, Revisions(bs)), Stepped(m, bs), ContentObjectOf, k)
  {
    hide Flat, ById, Stepped, WellFormedEntries, Revisions;
    OwnedRows();
    StepEntry(m, bs, Owner(k));
    FindRevised(bs, PointerRows, k);
    if Owner(k) in ById(bs) {
      FindOne(PointerRows(ById(bs)[Owner(k)])[0], k);
    }
  }

  lemma RelationshipSteps(t: Table<Relationship>, m: EntryMap, bs: seq<Record>, k: Id)
    requires Ready(m, bs) && RowHolds(t, m, RelationshipFor, k)
    ensures RowHolds(t, Stepped(m, bs), RelationshipFor, k)
  {
    hide ById, Stepped, WellFormedEntries;
    StepEntry(m, bs, Owner(k));
  }

  lemma ReadyIsDistinct(m: EntryMap, bs: seq<Record>)
    requires Ready(m, bs)
    ensures DistinctIds(bs)
  {
  }

  /** A revision closes the claim of the latest version and leaves the others as they are. */
  lemma RevisedClaim(r: Record, b: Record, v: int, process: Process)
    requires WellFormedRecord(r) && StepOf(r, b) && !b.deleted && 1 <= v <= |r.versions|
    ensures AssertionAt(b, v, process) ==
            CLOSE_ASSERTIONS.assign(AssertionAt(r, v, process),
                                    ClosePatch(SourceVersionId(b.id, Latest(b).version), Latest(b).updatedAt))
    ensures AssertionAt(r, v, process).subject == EvidenceResource(r.id)
  {
  }

  lemma NewClaim(r: Record, b: Record, process: Process)
    requires StepOf(r, b) && !b.deleted
    ensures Latest(b).version == |b.versions| == |r.versions| + 1 && b.id == r.id
    ensures AssertionAt(b, |b.versions|, process) == AssertionFor(b, Latest(b), process)
  {
  }

  /** Closing what is open and opening the new version, seen from one key of a revised record. */
  lemma RevisedAssertion(o: Id, e: Entry, b: Record, k: Id)
    requires WellFormedEntry(o, e) && StepOf(e.record, b) && !b.deleted
    ensures var p := ClosePatch(SourceVersionId(b.id, Latest(b).version), Latest(b).updatedAt);
            var before, after := AssertionOf(e, k), AssertionOf(Entry(b, e.base, true), k);
            && (before.Some? ==>
                  && before.value.subject == EvidenceResource(o)
                  && after == Some(CLOSE_ASSERTIONS.assign(before.value, p)))
            && (before.None? && k == AssertionUpdateId(b.id, Latest(b).version) ==>
                  after == Some(AssertionFor(b, Latest(b), IncrementalMapper)))
            && (before.None? && k != AssertionUpdateId(b.id, Latest(b).version) ==> after == None)
            && (k == AssertionUpdateId(b.id, Latest(b).version) ==> before.None?)
  {
    NewClaim(e.record, b, IncrementalMapper);
    RevisedClaim(e.record, b, e.base, SemanticMapper);
    if k.AssertionUpdateId? && LaterVersion(e, k.version) {
      RevisedClaim(e.record, b, k.version, IncrementalMapper);
    }
    hide AssertionAt, AssertionFor, StepOf;
  }

  lemma UnrevisedAssertion(e: Entry, b: Record, k: Id)
    requires StepOf(e.record, b) && b.deleted
    ensures AssertionOf(e, k) == AssertionOf(Entry(b, e.base, true), k)
  {
  }

  lemma AssertionSubject(o: Id, e: Entry, k: Id)
    requires WellFormedEntry(o, e)
    ensures AssertionOf(e, k).Some? ==> AssertionOf(e, k).value.subject == EvidenceResource(o)
  {
  }

  lemma AssertionSteps(t: Table<Assertion>, m: EntryMap, bs: seq<Record>, k: Id)
    requires Ready(m, bs) && RowHolds(t, m, AssertionOf, k)
    ensures RowHolds(ApplyAssertions(t, Revisions(bs)), Stepped(m, bs), AssertionOf, k)
  {
    hide Flat, ById, Stepped, WellFormedEntry, Revisions, Owned, Ready, AssertionOf, AssertionFor, StepOf, Owner,
      DistinctIds;
    var o := Owner(k);
    ReadyIsDistinct(m, bs);
    OwnedBatchClaimRows();
    OwnerOfSubject(k);
    StepEntry(m, bs, o);
    FindKeys(Flat(Revisions(bs), NewAssertionRows));
    FindRevised(bs, NewAssertionRows, k);
    FindRevised(bs, CloseRows, EvidenceResource(o));
    if o in m {
      AssertionSubject(o, m[o], k);
      if o in ById(bs) {
        var b := ById(bs)[o];
        FindOne(NewAssertionRows(b)[0], k);
        FindOne(CloseRows(b)[0], EvidenceResource(o));
        StepKeepsId(m, bs, o);
        if b.deleted {
          UnrevisedAssertion(m[o], b, k);
        } else {
          RevisedAssertion(o, m[o], b, k);
        }
      }
    }
  }

  lemma OwnerOfSubject(k: Id)
    ensures Owner(EvidenceResource(Owner(k))) == Owner(k)
    ensures Owner(ContentResource(Owner(k))) == Owner(k)
  {
  }

  lemma StepKeepsId(m: EntryMap, bs: seq<Record>, o: Id)
    requires Ready(m, bs) && o in ById(bs)
    ensures ById(bs)[o].id == o
  {
    ByIdKeys(bs);
  }

  lemma ProvenanceSteps(t: Table<Provenance>, m: EntryMap, bs: seq<Record>, k: Id)
    requires Ready(m, bs) && RowHolds(t, m, ProvenanceOf, k)
    ensures RowHolds(ApplyProvenance(t, Revisions(bs)), Stepped(m, bs), ProvenanceOf, k)
  {
    hide Flat, ById, Stepped, WellFormedEntries, Revisions;
    OwnedBatchRows();
    OwnedBatchClaimRows();
    StepEntry(m, bs, Owner(k));
    FindKeys(Flat(Revisions(bs), NewProvenanceRows));
    FindRevised(bs, NewProvenanceRows, k);
    if Owner(k) in ById(bs) {
      FindOne(NewProvenanceRows(ById(bs)[Owner(k)])[0], k);
    }
  }

  lemma NewDocuments(b: Record, k: Id)
    ensures Find(NewDocumentRows(b), k) ==
            if k.DocumentUpdateId? && k.record == b.id && k.version == Latest(b).version
               && 0 <= k.chunk < |Chunking.Chunks(Latest(b).body)| then
              Some(DocumentFor(b, Latest(b), AssertionUpdateId(b.id, Latest(b).version),
                               Chunking.Chunks(Latest(b).body)[k.chunk], true))
            else None
  {
    Chunking.ChunkNumbers(Latest(b).body);
    DocumentRowsDisjoint(b);
    if k.DocumentUpdateId? && k.record == b.id && k.version == Latest(b).version
       && 0 <= k.chunk < |Chunking.Chunks(Latest(b).body)| {
      FindAt(NewDocumentRows(b), k.chunk, k);
    } else {
      FindNone(NewDocumentRows(b), k);
    }
  }

  /** Retiring every document of a changed record and indexing the new version, seen from one key. */
  lemma ChangedDocument(o: Id, e: Entry, b: Record, k: Id)
    requires WellFormedEntry(o, e) && StepOf(e.record, b)
    ensures var before, after := DocumentOf(e, k), DocumentOf(Entry(b, e.base, true), k);
            var offered := if b.deleted then None else Find(NewDocumentRows(b), k);
            && (before.Some? ==>
                  before.value.resourceId == EvidenceResource(o) && offered == None
                  && after == Some(before.value.(active := false)))
            && (before.None? ==> after == offered)
  {
    hide NewDocumentRows, Chunking.Chunks;
    NewDocuments(b, k);
  }

  lemma DocumentResource(o: Id, e: Entry, k: Id)
    requires WellFormedEntry(o, e)
    ensures DocumentOf(e, k).Some? ==> DocumentOf(e, k).value.resourceId == EvidenceResource(o)
  {
  }

  lemma DocumentSteps(t: Table<Document>, m: EntryMap, bs: seq<Record>, k: Id)
    requires Ready(m, bs) && RowHolds(t, m, DocumentOf, k)
    ensures RowHolds(Reindex(Deactivate(t, bs), Revisions(bs)), Stepped(m, bs), DocumentOf, k)
  {
    hide Flat, ById, Stepped, WellFormedEntry, Revisions, Owned, Ready, DocumentOf, NewDocumentRows, StepOf, Owner,
      DistinctIds;
    var o := Owner(k);
    ReadyIsDistinct(m, bs);
    OwnedBatchRows();
    OwnedBatchClaimRows();
    OwnerOfSubject(k);
    StepEntry(m, bs, o);
    FindKeys(Flat(Revisions(bs), NewDocumentRows));
    FindRevised(bs, NewDocumentRows, k);
    FindChanged(bs, EvidenceKeyRows, EvidenceResource(o));
    if o in m {
      DocumentResource(o, m[o], k);
      if o in ById(bs) {
        FindOne(EvidenceKeyRows(ById(bs)[o])[0], EvidenceResource(o));
        StepKeepsId(m, bs, o);
        ChangedDocument(o, m[o], ById(bs)[o], k);
      }
    }
  }

  lemma CandidateSteps(t: Table<Candidate>, m: EntryMap, bs: seq<Record>, k: Id)
    requires Ready(m, bs) && RowHolds(t, m, CandidateOf, k)
    ensures RowHolds(ApplyCandidates(t, Revisions(bs)), Stepped(m, bs), CandidateOf, k)
  {
    hide Flat, ById, Stepped, WellFormedEntries, Revisions;
    OwnedBatchRows();
    OwnedBatchClaimRows();
    StepEntry(m, bs, Owner(k));
    FindRevised(bs, CandidatePatchRows, k);
    if Owner(k) in ById(bs) {
      var rows := CandidatePatchRows(ById(bs)[Owner(k)]);
      FindOne(rows[1], k);
      assert rows[1..] == [rows[1]];
    }
  }

  // ---- Tables with rows shared between records

  /** A batch changes nothing a shared row is built from. */
  lemma ReplacedKeepsIdentity(m: EntryMap, rs: seq<Record>, bs: seq<Record>, i: nat)
    requires Ready(m, bs) && EntriesOf(m, rs) && i < |rs|
    ensures var r, r' := rs[i], Replaced(rs, bs)[i];
            && r'.id == r.id && r'.canonicalClientId == r.canonicalClientId
            && r'.canonicalClientName == r.canonicalClientName
            && r'.canonicalProjectId == r.canonicalProjectId && r'.canonicalProjectName == r.canonicalProjectName
            && r'.sourceSystem == r.sourceSystem && r'.ambiguousAlias == r.ambiguousAlias && r'.external == r.external
            && r'.sourceClientReference == r.sourceClientReference
            && r'.sourceProjectReference == r.sourceProjectReference
            && WellFormedRecord(r')
  {
    hide Stepped;
    ByIdAt(rs, i);
    StepEntry(m, bs, rs[i].id);
    ByIdKeys(bs);
  }

  lemma ReplacedIds(m: EntryMap, rs: seq<Record>, bs: seq<Record>)
    requires Ready(m, bs) && EntriesOf(m, rs)
    ensures WellFormed(Replaced(rs, bs))
    ensures forall i :: 0 <= i < |rs| ==> Replaced(rs, bs)[i].id == rs[i].id
  {
    hide StepOf, WellFormedRecord;
    var rs' := Replaced(rs, bs);
    forall i | 0 <= i < |rs|
      ensures rs'[i].id == rs[i].id && WellFormedRecord(rs'[i])
    {
      ReplacedKeepsIdentity(m, rs, bs, i);
    }
  }

  lemma ReplacedEntry(m: EntryMap, rs: seq<Record>, bs: seq<Record>, k: Id)
    requires Ready(m, bs) && EntriesOf(m, rs)
    ensures k in Stepped(m, bs) <==> k in ById(Replaced(rs, bs))
    ensures k in Stepped(m, bs) ==>
              Stepped(m, bs)[k].record == ById(Replaced(rs, bs))[k] && WellFormedEntry(k, Stepped(m, bs)[k])
  {
    hide StepOf, WellFormedEntry, WellFormedRecord, ById, Stepped, Ready;
    var rs' := Replaced(rs, bs);
    ReplacedIds(m, rs, bs);
    ByIdKeys(rs);
    ByIdKeys(rs');
    StepEntry(m, bs, k);
    if i :| 0 <= i < |rs| && rs[i].id == k {
      assert rs'[i].id == k;
      ByIdAt(rs, i);
      ByIdAt(rs', i);
    }
  }

  lemma ReplacedEntries(m: EntryMap, rs: seq<Record>, bs: seq<Record>)
    requires Ready(m, bs) && EntriesOf(m, rs)
    ensures EntriesOf(Stepped(m, bs), Replaced(rs, bs)) && WellFormedEntries(Stepped(m, bs))
  {
    hide Ready, Stepped, Replaced, ById, WellFormed, WellFormedEntry;
    assert WellFormed(Replaced(rs, bs)) by { ReplacedIds(m, rs, bs); }
    forall k
      ensures k in Stepped(m, bs) <==> k in ById(Replaced(rs, bs))
      ensures k in Stepped(m, bs) ==>
                Stepped(m, bs)[k].record == ById(Replaced(rs, bs))[k] && WellFormedEntry(k, Stepped(m, bs)[k])
    {
      ReplacedEntry(m, rs, bs, k);
    }
  }

  lemma SharedRowsKept(m: EntryMap, rs: seq<Record>, bs: seq<Record>)
    requires Ready(m, bs) && EntriesOf(m, rs)
    ensures SharedRows(Replaced(rs, bs)) == SharedRows(rs)
  {
    hide FromPairs, Ready, EntriesOf;
    forall i | 0 <= i < |rs|
      ensures ClientPair(Replaced(rs, bs)[i]) == ClientPair(rs[i])
              && ProjectPair(Replaced(rs, bs)[i]) == ProjectPair(rs[i])
    {
      ReplacedKeepsIdentity(m, rs, bs, i);
    }
    assert Map(Replaced(rs, bs), ClientPair) == Map(rs, ClientPair);
    assert Map(Replaced(rs, bs), ProjectPair) == Map(rs, ProjectPair);
  }

  /** Batches change no client, so the alias table fits the updated records as it is. */
  lemma ClientsKept(m: EntryMap, rs: seq<Record>, bs: seq<Record>)
    requires Ready(m, bs) && EntriesOf(m, rs)
    ensures ClientMap(Replaced(rs, bs)) == ClientMap(rs)
  {
    hide FromPairs, Ready, EntriesOf;
    forall i | 0 <= i < |rs|
      ensures ClientPair(Replaced(rs, bs)[i]) == ClientPair(rs[i])
    {
      ReplacedKeepsIdentity(m, rs, bs, i);
    }
    assert Map(Replaced(rs, bs), ClientPair) == Map(rs, ClientPair);
  }

  lemma OwnedResourceStep(o: Id, e: Entry, b: Record, k: Id)
    requires WellFormedEntry(o, e) && StepOf(e.record, b) && b.id == o
    ensures var p := ResourcePatch(Latest(b).title, Latest(b).body, b.deleted);
            ResourceOf(Entry(b, e.base, true), k) ==
            match ResourceOf(e, k) case None => None case Some(r) => Some(UPDATE_RESOURCES.assign(r, p))
    ensures ResourceOf(e, k).Some? <==> k in {EvidenceResource(o), ContentResource(o)}
  {
  }

  lemma ResourcesStep(t: Table<Resource>, m: EntryMap, rs: seq<Record>, bs: seq<Record>)
    requires Ready(m, bs) && EntriesOf(m, rs) && HoldsBeside(t, m, ResourceOf, SharedRows(rs))
    ensures HoldsBeside(ApplyResources(t, bs), Stepped(m, bs), ResourceOf, SharedRows(Replaced(rs, bs)))
  {
    hide Flat, ById, Stepped, WellFormedEntries, WellFormedEntry, Owned, StepOf, ResourceOf, SharedRows, Owner, Find,
      EntriesOf, DistinctIds;
    SharedRowsKept(m, rs, bs);
    OwnedBatchRows();
    forall k
      ensures Find(Flat(bs, ResourcePatchRows), k) == if Owner(k) in ById(bs) then
                                                        Find(ResourcePatchRows(ById(bs)[Owner(k)]), k) else None
    {
      FindChanged(bs, ResourcePatchRows, k);
    }
    forall k
      ensures Stepped(m, bs).Keys == m.Keys
      ensures Owner(k) !in m ==> Owner(k) !in ById(bs)
      ensures Owner(k) in m && Owner(k) !in ById(bs) ==> Stepped(m, bs)[Owner(k)] == m[Owner(k)]
      ensures Owner(k) in ById(bs) ==>
                var b := ById(bs)[Owner(k)];
                && Find(ResourcePatchRows(b), k) ==
                   (if ResourceOf(m[Owner(k)], k).Some? then
                      Some(ResourcePatch(Latest(b).title, Latest(b).body, b.deleted)) else None)
                && ResourceOf(Stepped(m, bs)[Owner(k)], k) ==
                   (match ResourceOf(m[Owner(k)], k)
                    case None => None
                    case Some(r) =>
                      Some(UPDATE_RESOURCES.assign(r, ResourcePatch(Latest(b).title, Latest(b).body, b.deleted))))
    {
      StepEntry(m, bs, Owner(k));
      if Owner(k) in ById(bs) {
        StepKeepsId(m, bs, Owner(k));
        FindOne(ResourcePatchRows(ById(bs)[Owner(k)])[0], k);
        OwnedResourceStep(Owner(k), m[Owner(k)], ById(bs)[Owner(k)], k);
      }
    }
  }

  predicate SameCandidate(c: Candidate, d: Candidate) {
    c.resourceId == d.resourceId && c.system == d.system && c.keyType == d.keyType && c.externalKey == d.externalKey
  }

  predicate SameReferences(r: Record, r': Record) {
    && r'.sourceSystem == r.sourceSystem && r'.ambiguousAlias == r.ambiguousAlias
    && r'.sourceClientReference == r.sourceClientReference && r'.sourceProjectReference == r.sourceProjectReference
    && r'.canonicalClientId == r.canonicalClientId && r'.canonicalProjectId == r.canonicalProjectId
  }

  lemma {:induction false} PromotedAligned(rs: seq<Record>, rs': seq<Record>)
    requires |rs| == |rs'| && forall i :: 0 <= i < |rs| ==> SameReferences(rs[i], rs'[i])
    ensures var ps, qs := Flat(rs, PromotedPairs), Flat(rs', PromotedPairs);
            |ps| == |qs| && forall i :: 0 <= i < |ps| ==> ps[i].0 == qs[i].0 && SameCandidate(ps[i].1, qs[i].1)
  {
    if rs != [] {
      assert SameReferences(rs[0], rs'[0]);
      forall i | 0 <= i < |rs[1..]|
        ensures SameReferences(rs[1..][i], rs'[1..][i])
      {
        assert SameReferences(rs[i + 1], rs'[i + 1]);
      }
      PromotedAligned(rs[1..], rs'[1..]);
    }
  }

  lemma PromotedKept(m: EntryMap, rs: seq<Record>, bs: seq<Record>, k: Id)
    requires Ready(m, bs) && EntriesOf(m, rs)
    ensures var before, after := Get(PromotedKeys(rs), k), Get(PromotedKeys(Replaced(rs, bs)), k);
            (before == None <==> after == None) && (before != None ==> SameCandidate(before.value, after.value))
  {
    hide Ready, EntriesOf;
    forall i | 0 <= i < |rs|
      ensures SameReferences(rs[i], Replaced(rs, bs)[i])
    {
      ReplacedKeepsIdentity(m, rs, bs, i);
    }
    PromotedAligned(rs, Replaced(rs, bs));
    var i := GetAligned(Flat(rs, PromotedPairs), Flat(Replaced(rs, bs), PromotedPairs), k);
  }

  /** A patch of an identity key cites the new version of a revised record. */
  lemma PatchCites(m: EntryMap, bs: seq<Record>, k: Id)
    requires Ready(m, bs)
    ensures Find(IdentityKeyPatchRows(Revisions(bs)), k).Some? ==>
              CitesVersion(Stepped(m, bs), Find(IdentityKeyPatchRows(Revisions(bs)), k).value)
  {
    hide Flat, FromPairs, Stepped, ById, Revisions;
    var revisions := Revisions(bs);
    var pairs := Flat(revisions, PromotedPairs);
    FromPairsDistinct(pairs);
    FindEntries(IdentityKeyPatches(revisions), IdentityKeyPatchRow, k);
    GetFromPairs(pairs, k);
    var found := Get(FromPairs(pairs), k);
    if found.Some? {
      var r := PromotedPairOf(revisions, (k, found.value));
      RevisedRecord(m, bs, r);
      assert found.value.sourceVersionId == SourceVersionId(r.id, Latest(r).version);
    }
  }

  lemma RevisedRecord(m: EntryMap, bs: seq<Record>, r: Record)
    requires Ready(m, bs) && r in Revisions(bs)
    ensures CitesVersion(Stepped(m, bs), SourceVersionId(r.id, Latest(r).version))
  {
    FilterMembers(bs, IsLive);
    var i :| 0 <= i < |bs| && bs[i] == r;
    ByIdAt(bs, i);
    StepEntry(m, bs, r.id);
  }

  lemma StillCites(m: EntryMap, bs: seq<Record>, id: Id)
    requires Ready(m, bs) && CitesVersion(m, id)
    ensures CitesVersion(Stepped(m, bs), id)
  {
    StepEntry(m, bs, id.record);
  }

  lemma IdentityKeysStep(t: Table<IdentityKey>, m: EntryMap, rs: seq<Record>, bs: seq<Record>)
    requires Ready(m, bs) && EntriesOf(m, rs) && HoldsKeys(t, m, rs)
    ensures HoldsKeys(ApplyIdentityKeys(t, Revisions(bs)), Stepped(m, bs), Replaced(rs, bs))
  {
    hide Ready, EntriesOf, PromotedKeys, Find, IdentityKeyPatchRows, Stepped, Replaced, CitesVersion, Revisions;
    forall k
      ensures Get(PromotedKeys(rs), k) == None <==> Get(PromotedKeys(Replaced(rs, bs)), k) == None
      ensures Get(PromotedKeys(rs), k) != None ==>
                SameCandidate(Get(PromotedKeys(rs), k).value, Get(PromotedKeys(Replaced(rs, bs)), k).value)
      ensures Find(IdentityKeyPatchRows(Revisions(bs)), k).Some? ==>
                CitesVersion(Stepped(m, bs), Find(IdentityKeyPatchRows(Revisions(bs)), k).value)
      ensures k in t ==> CitesVersion(Stepped(m, bs), t[k].sourceVersionId)
    {
      PromotedKept(m, rs, bs, k);
      PatchCites(m, bs, k);
      if k in t {
        StillCites(m, bs, t[k].sourceVersionId);
      }
    }
  }

  // ---- The whole database

  lemma VersionTablesStep(db: Db, m: EntryMap, bs: seq<Record>)
    requires Ready(m, bs)
    requires Holds(db.sourceObjects, m, SourceObjectOf) && Holds(db.sourceVersions, m, SourceVersionOf)
    requires Holds(db.contentVersions, m, ContentVersionOf) && Holds(db.contentObjects, m, ContentObjectOf)
    requires Holds(db.relationships, m, RelationshipFor)
    ensures Holds(ApplySourceObjects(db.sourceObjects, bs), Stepped(m, bs), SourceObjectOf)
    ensures Holds(ApplySourceVersions(db.sourceVersions, Revisions(bs)), Stepped(m, bs), SourceVersionOf)
    ensures Holds(ApplyContentVersions(db.contentVersions, Revisions(bs)), Stepped(m, bs), ContentVersionOf)
    ensures Holds(ApplyContentObjects(db.contentObjects, Revisions(bs)), Stepped(m, bs), ContentObjectOf)
    ensures Holds(db.relationships, Stepped(m, bs), RelationshipFor)
  {
    hide Ready, Holds, RowHolds, ApplySourceObjects, ApplySourceVersions, ApplyContentVersions, ApplyContentObjects,
      Revisions, Stepped;
    forall k
      ensures RowHolds(ApplySourceObjects(db.sourceObjects, bs), Stepped(m, bs), SourceObjectOf, k)
      ensures RowHolds(ApplySourceVersions(db.sourceVersions, Revisions(bs)), Stepped(m, bs), SourceVersionOf, k)
      ensures RowHolds(ApplyContentVersions(db.contentVersions, Revisions(bs)), Stepped(m, bs), ContentVersionOf, k)
      ensures RowHolds(ApplyContentObjects(db.contentObjects, Revisions(bs)), Stepped(m, bs), ContentObjectOf, k)
      ensures RowHolds(db.relationships, Stepped(m, bs), RelationshipFor, k)
    {
      RowsByHolds(db.sourceObjects, m, SourceObjectOf, k);
      SourceObjectSteps(db.sourceObjects, m, bs, k);
      RowsByHolds(db.sourceVersions, m, SourceVersionOf, k);
      SourceVersionSteps(db.sourceVersions, m, bs, k);
      RowsByHolds(db.contentVersions, m, ContentVersionOf, k);
      ContentVersionSteps(db.contentVersions, m, bs, k);
      RowsByHolds(db.contentObjects, m, ContentObjectOf, k);
      ContentObjectSteps(db.contentObjects, m, bs, k);
      RowsByHolds(db.relationships, m, RelationshipFor, k);
      RelationshipSteps(db.relationships, m, bs, k);
    }
    HoldsByRows(ApplySourceObjects(db.sourceObjects, bs), Stepped(m, bs), SourceObjectOf);
    HoldsByRows(ApplySourceVersions(db.sourceVersions, Revisions(bs)), Stepped(m, bs), SourceVersionOf);
    HoldsByRows(ApplyContentVersions(db.contentVersions, Revisions(bs)), Stepped(m, bs), ContentVersionOf);
    HoldsByRows(ApplyContentObjects(db.contentObjects, Revisions(bs)), Stepped(m, bs), ContentObjectOf);
    HoldsByRows(db.relationships, Stepped(m, bs), RelationshipFor);
  }

  lemma ClaimTablesStep(db: Db, m: EntryMap, bs: seq<Record>)
    requires Ready(m, bs)
    requires Holds(db.assertions, m, AssertionOf) && Holds(db.provenance, m, ProvenanceOf)
    requires Holds(db.documents, m, DocumentOf) && Holds(db.candidates, m, CandidateOf)
    ensures Holds(ApplyAssertions(db.assertions, Revisions(bs)), Stepped(m, bs), AssertionOf)
    ensures Holds(ApplyProvenance(db.provenance, Revisions(bs)), Stepped(m, bs), ProvenanceOf)
    ensures Holds(Reindex(Deactivate(db.documents, bs), Revisions(bs)), Stepped(m, bs), DocumentOf)
    ensures Holds(ApplyCandidates(db.candidates, Revisions(bs)), Stepped(m, bs), CandidateOf)
  {
    hide Ready, Holds, RowHolds, ApplyAssertions, ApplyProvenance, Reindex, Deactivate, ApplyCandidates, Revisions,
      Stepped;
    forall k
      ensures RowHolds(ApplyAssertions(db.assertions, Revisions(bs)), Stepped(m, bs), AssertionOf, k)
      ensures RowHolds(ApplyProvenance(db.provenance, Revisions(bs)), Stepped(m, bs), ProvenanceOf, k)
      ensures RowHolds(Reindex(Deactivate(db.documents, bs), Revisions(bs)), Stepped(m, bs), DocumentOf, k)
      ensures RowHolds(ApplyCandidates(db.candidates, Revisions(bs)), Stepped(m, bs), CandidateOf, k)
    {
      RowsByHolds(db.assertions, m, AssertionOf, k);
      AssertionSteps(db.assertions, m, bs, k);
      RowsByHolds(db.provenance, m, ProvenanceOf, k);
      ProvenanceSteps(db.provenance, m, bs, k);
      RowsByHolds(db.documents, m, DocumentOf, k);
      DocumentSteps(db.documents, m, bs, k);
      RowsByHolds(db.candidates, m, CandidateOf, k);
      CandidateSteps(db.candidates, m, bs, k);
    }
    HoldsByRows(ApplyAssertions(db.assertions, Revisions(bs)), Stepped(m, bs), AssertionOf);
    HoldsByRows(ApplyProvenance(db.provenance, Revisions(bs)), Stepped(m, bs), ProvenanceOf);
    HoldsByRows(Reindex(Deactivate(db.documents, bs), Revisions(bs)), Stepped(m, bs), DocumentOf);
    HoldsByRows(ApplyCandidates(db.candidates, Revisions(bs)), Stepped(m, bs), CandidateOf);
  }

  /** Every table stays described by the entries: applying a batch steps them, and nothing else. */
  lemma BatchTracks(db: Db, m: EntryMap, rs: seq<Record>, b: UpdateBatch)
    requires Tracks(db, m, rs) && StepsOf(m, b.records)
    ensures Tracks(Apply(db, b), Stepped(m, b.records), Replaced(rs, b.records))
  {
    hide Holds, HoldsBeside, HoldsKeys, Inserted, ClientMap, WellFormedEntries, EntriesOf, StepsOf, Stepped, Replaced,
      SharedRows, Revisions,
      ApplySourceObjects, ApplyResources, Deactivate, RetireEmbeddings, ApplySourceVersions, ApplyContentVersions,
      ApplyContentObjects, ApplyAssertions, ApplyProvenance, Reindex, ApplyCandidates, ApplyIdentityKeys,
      ApplySources, ApplySyncRuns;
    ReplacedEntries(m, rs, b.records);
    ResourcesStep(db.resources, m, rs, b.records);
    ClientsKept(m, rs, b.records);
    IdentityKeysStep(db.identityKeys, m, rs, b.records);
    VersionTablesStep(db, m, b.records);
    ClaimTablesStep(db, m, b.records);
  }
}
