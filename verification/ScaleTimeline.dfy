/** The assertion timeline and the schema constraints, in every state described by entries. */
module ScaleTimeline {
  import opened Prelude
  import opened Corpus
  import opened Statements
  import opened RecordRows
  import opened ScaleTables
  import opened ScaleState

  /** Validity intervals are right-open; an open interval has no end. */
  predicate Before(a: Assertion, b: Assertion) {
    a.validTo.Some? && a.validTo.value <= b.validFrom
  }

  /** The claims about one evidence resource form a chain: intervals are not empty and do not overlap,
      each closed one ends where another starts, and at most one is open. */
  ghost predicate Timeline(t: Table<Assertion>) {
    && (forall k :: k in t && t[k].validTo.Some? ==> t[k].validFrom < t[k].validTo.value)
    && (forall j, k :: j in t && k in t && j != k && t[j].subject == t[k].subject ==>
                         Before(t[j], t[k]) || Before(t[k], t[j]))
    && (forall k :: k in t && t[k].validTo.Some? ==> exists j :: j in t && Succeeds(t[k], t[j]))
  }

  predicate Succeeds(a: Assertion, b: Assertion) {
    a.validTo.Some? && b.subject == a.subject && b.validFrom == a.validTo.value
  }

  /** Every record's evidence has an open claim, and it is the one about the latest version. */
  ghost predicate OpenClaims(t: Table<Assertion>, m: EntryMap) {
    forall o :: o in m ==> exists k :: k in t && OpenClaim(t[k], m[o].record)
  }

  predicate OpenClaim(a: Assertion, r: Record) {
    && a.subject == EvidenceResource(r.id) && a.validTo == None
    && a.stance == Latest(r).stance && a.sourceVersionId == SourceVersionId(r.id, |r.versions|)
    && a.validFrom == Latest(r).updatedAt
  }

  /** Every assertion names a relationship that exists, with its own endpoints and predicate. */
  ghost predicate ClaimsAreRelated(t: Table<Assertion>, relationships: Table<Relationship>) {
    forall k :: k in t ==>
                  && t[k].relationshipId in relationships
                  && relationships[t[k].relationshipId] == Relationship(t[k].subject, t[k].target, t[k].stance)
  }

  lemma {:induction false} TimesIncrease(o: Id, e: Entry, v: int, w: int)
    requires WellFormedEntry(o, e) && e.base <= v <= w <= |e.record.versions|
    ensures VersionAt(e.record, v).updatedAt <= VersionAt(e.record, w).updatedAt
    ensures v < w ==> VersionAt(e.record, v).updatedAt < VersionAt(e.record, w).updatedAt
    ensures VersionAt(e.record, v).stance == VersionAt(e.record, w).stance
    decreases w
  {
    if v < w {
      TimesIncrease(o, e, v, w - 1);
      assert e.record.versions[w - 1].stance == e.record.versions[w - 2].stance;
    }
  }

  /** Where an assertion of a record sits among the record's versions. */
  lemma AssertionPlace(o: Id, e: Entry, k: Id)
    requires WellFormedEntry(o, e) && Owner(k) == o && AssertionOf(e, k).Some?
    ensures var a, v := AssertionOf(e, k).value, VersionOf(e, k);
            && e.base <= v <= |e.record.versions|
            && a.subject == EvidenceResource(o)
            && a.validFrom == VersionAt(e.record, v).updatedAt
            && a.validTo == (if v < |e.record.versions| then Some(VersionAt(e.record, v + 1).updatedAt) else None)
            && k == (if v == e.base then AssertionId(o) else AssertionUpdateId(o, v))
  {
  }

  /** The key of the assertion about a version. */
  function ClaimKey(o: Id, e: Entry, v: int): Id {
    if v == e.base then AssertionId(o) else AssertionUpdateId(o, v)
  }

  lemma ClaimExists(o: Id, e: Entry, v: int)
    requires WellFormedEntry(o, e) && e.base <= v <= |e.record.versions|
    ensures Owner(ClaimKey(o, e, v)) == o && AssertionOf(e, ClaimKey(o, e, v)).Some?
    ensures VersionOf(e, ClaimKey(o, e, v)) == v
  {
  }

  lemma ClaimsOrdered(t: Table<Assertion>, m: EntryMap, j: Id, k: Id)
    requires WellFormedEntries(m) && Holds(t, m, AssertionOf)
    requires j in t && k in t && j != k && t[j].subject == t[k].subject
    ensures Before(t[j], t[k]) || Before(t[k], t[j])
  {
    hide AssertionOf, WellFormedEntry, Owner, VersionOf, VersionAt;
    var o := Owner(k);
    AssertionPlace(Owner(j), m[Owner(j)], j);
    AssertionPlace(o, m[o], k);
    var v, w := VersionOf(m[o], j), VersionOf(m[o], k);
    if v < w {
      TimesIncrease(o, m[o], v + 1, w);
    } else if w < v {
      TimesIncrease(o, m[o], w + 1, v);
    }
  }

  lemma ClaimSucceeded(t: Table<Assertion>, m: EntryMap, k: Id)
    requires WellFormedEntries(m) && Holds(t, m, AssertionOf)
    requires k in t && t[k].validTo.Some?
    ensures t[k].validFrom < t[k].validTo.value
    ensures exists j :: j in t && Succeeds(t[k], t[j])
  {
    hide AssertionOf, WellFormedEntry, Owner, VersionOf, VersionAt;
    var o := Owner(k);
    AssertionPlace(o, m[o], k);
    var v := VersionOf(m[o], k);
    TimesIncrease(o, m[o], v, v + 1);
    ClaimExists(o, m[o], v + 1);
    var j := ClaimKey(o, m[o], v + 1);
    AssertionPlace(o, m[o], j);
    assert j in t && Succeeds(t[k], t[j]);
  }

  lemma ClaimOpen(t: Table<Assertion>, m: EntryMap, o: Id)
    requires WellFormedEntries(m) && Holds(t, m, AssertionOf) && o in m
    ensures exists k :: k in t && OpenClaim(t[k], m[o].record)
  {
    var n := |m[o].record.versions|;
    ClaimExists(o, m[o], n);
    var k := ClaimKey(o, m[o], n);
    AssertionPlace(o, m[o], k);
    assert WellFormedEntry(o, m[o]);
    assert k in t && OpenClaim(t[k], m[o].record);
  }

  lemma ClaimRelationship(o: Id, e: Entry, k: Id)
    requires WellFormedEntry(o, e) && Owner(k) == o && AssertionOf(e, k).Some?
    ensures var a := AssertionOf(e, k).value;
            && Owner(a.relationshipId) == o
            && RelationshipFor(e, a.relationshipId) == Some(Relationship(a.subject, a.target, a.stance))
  {
    AssertionPlace(o, e, k);
    TimesIncrease(o, e, VersionOf(e, k), |e.record.versions|);
  }

  lemma ClaimRelated(db: Db, m: EntryMap, k: Id)
    requires WellFormedEntries(m) && Holds(db.assertions, m, AssertionOf) && Holds(db.relationships, m, RelationshipFor)
    requires k in db.assertions
    ensures var a := db.assertions[k];
            a.relationshipId in db.relationships
            && db.relationships[a.relationshipId] == Relationship(a.subject, a.target, a.stance)
  {
    hide AssertionOf, RelationshipFor, WellFormedEntry, Owner;
    ClaimRelationship(Owner(k), m[Owner(k)], k);
  }

  /** The timeline in every reachable state: the claims of each evidence resource form one unbroken chain,
      exactly one of them is open, and all of them name their relationship. */
  lemma AssertionTimeline(db: Db, m: EntryMap, rs: seq<Record>)
    requires Tracks(db, m, rs)
    ensures Timeline(db.assertions) && OpenClaims(db.assertions, m) && ClaimsAreRelated(db.assertions, db.relationships)
  {
    hide Holds, WellFormedEntries, Succeeds, Before, OpenClaim;
    forall j, k | j in db.assertions && k in db.assertions && j != k
                  && db.assertions[j].subject == db.assertions[k].subject
      ensures Before(db.assertions[j], db.assertions[k]) || Before(db.assertions[k], db.assertions[j])
    {
      ClaimsOrdered(db.assertions, m, j, k);
    }
    forall k | k in db.assertions && db.assertions[k].validTo.Some?
      ensures db.assertions[k].validFrom < db.assertions[k].validTo.value
      ensures exists j :: j in db.assertions && Succeeds(db.assertions[k], db.assertions[j])
    {
      ClaimSucceeded(db.assertions, m, k);
    }
    forall o | o in m
      ensures exists k :: k in db.assertions && OpenClaim(db.assertions[k], m[o].record)
    {
      ClaimOpen(db.assertions, m, o);
    }
    forall k | k in db.assertions
      ensures db.assertions[k].relationshipId in db.relationships
      ensures db.relationships[db.assertions[k].relationshipId] ==
              Relationship(db.assertions[k].subject, db.assertions[k].target, db.assertions[k].stance)
    {
      ClaimRelated(db, m, k);
    }
  }
}
