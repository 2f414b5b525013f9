/** Parameter rows built record by record. Every key of a row names the record it was built from,
    so looking a key up in a whole row list is looking it up in the rows of one record. */
module RecordRows {
  import opened Prelude
  import opened Corpus
  import opened Statements

  /** The record a table key belongs to; a key that belongs to no record is its own owner. */
  function Owner(k: Id): Id {
    match k
    case ContentResource(record) => record
    case EvidenceResource(record) => record
    case SourceObjectId(record) => record
    case SourceVersionId(record, _) => record
    case ContentVersionId(record, _) => record
    case RelationshipId(evidence, _, _) => if evidence.EvidenceResource? then evidence.record else k
    case AssertionId(record) => record
    case AssertionUpdateId(record, _) => record
    case ProvenanceId(record) => record
    case ProvenanceUpdateId(record, _) => record
    case DocumentId(record, _) => record
    case DocumentUpdateId(record, _, _) => record
    case CandidateId(record, _, _) => record
    case _ => k
  }

  /** `records.flatMap(g)` */
  function Flat<P>(rs: seq<Record>, g: Record -> seq<P>): seq<P> {
    if rs == [] then [] else g(rs[0]) + Flat(rs[1..], g)
  }

  lemma {:induction false} FlatFrom<P>(rs: seq<Record>, g: Record -> seq<P>, p: P) returns (i: nat)
    requires p in Flat(rs, g)
    ensures i < |rs| && p in g(rs[i])
  {
    if p in g(rs[0]) {
      i := 0;
    } else {
      i := FlatFrom(rs[1..], g, p);
      i := i + 1;
    }
  }

  lemma {:induction false} FlatHas<P>(rs: seq<Record>, g: Record -> seq<P>, i: nat, p: P)
    requires i < |rs| && p in g(rs[i])
    ensures p in Flat(rs, g)
  {
    if i > 0 {
      FlatHas(rs[1..], g, i - 1, p);
    }
  }

  ghost predicate Owned<P>(g: Record -> seq<Row<P>>) {
    forall r, i, k :: 0 <= i < |g(r)| && k in g(r)[i].keys ==> Owner(k) == r.id
  }

  lemma FindOne<P>(row: Row<P>, k: Id)
    ensures Find([row], k) == if k in row.keys then Some(row.val) else None
  {
    assert [row][1..] == [];
  }

  lemma {:induction false} FindForeign<P>(rs: seq<Record>, g: Record -> seq<Row<P>>, k: Id)
    requires Owned(g)
    requires forall i :: 0 <= i < |rs| ==> rs[i].id != Owner(k)
    ensures Find(Flat(rs, g), k) == None
  {
    if rs != [] {
      FindAppend(g(rs[0]), Flat(rs[1..], g), k);
      FindNone(g(rs[0]), k);
      FindForeign(rs[1..], g, k);
    }
  }

  lemma {:induction false} FindOwn<P>(rs: seq<Record>, g: Record -> seq<Row<P>>, i: nat, k: Id)
    requires Owned(g) && DistinctIds(rs) && i < |rs| && rs[i].id == Owner(k)
    ensures Find(Flat(rs, g), k) == Find(g(rs[i]), k)
  {
    FindAppend(g(rs[0]), Flat(rs[1..], g), k);
    if i == 0 {
      FindForeign(rs[1..], g, k);
    } else {
      FindNone(g(rs[0]), k);
      FindOwn(rs[1..], g, i - 1, k);
    }
  }

  lemma FindFlat<P>(rs: seq<Record>, g: Record -> seq<Row<P>>, k: Id)
    requires Owned(g) && DistinctIds(rs)
    ensures Find(Flat(rs, g), k) == if Owner(k) in ById(rs) then Find(g(ById(rs)[Owner(k)]), k) else None
  {
    ByIdKeys(rs);
    if Owner(k) in ById(rs) {
      var i :| 0 <= i < |rs| && rs[i].id == Owner(k);
      ByIdAt(rs, i);
      FindOwn(rs, g, i, k);
    } else {
      FindForeign(rs, g, k);
    }
  }

  lemma {:induction false} FlatAppend<P>(a: seq<Record>, b: seq<Record>, g: Record -> seq<P>)
    ensures Flat(a + b, g) == Flat(a, g) + Flat(b, g)
  {
    if a == [] {
      assert a + b == b;
    } else {
      assert (a + b)[1..] == a[1..] + b;
      FlatAppend(a[1..], b, g);
    }
  }
}
