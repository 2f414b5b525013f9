/** Promotion of resolved candidates to identity keys: one key never names two canonical resources. */
module Identities {
  import opened Prelude
  import opened Corpus
  import opened JsMap
  import opened RecordRows
  import opened Generator
  import opened Names
  import opened Lineage
  import opened ScaleTables

  /** References made from the record's own names and the indexes of its client and project. */
  predicate Referenced(r: Record, client: nat, project: nat) {
    && r.sourceClientReference == SourceReference(r.sourceSystem, r.canonicalClientName, client, r.ambiguousAlias)
    && r.sourceProjectReference == SourceReference(r.sourceSystem, r.canonicalProjectName, project, r.ambiguousAlias)
    && r.canonicalClientId == ClientId(r.canonicalClientName)
    && r.canonicalProjectId == ProjectId(r.canonicalProjectName)
  }

  predicate NamedAt(o: CorpusOptions, i: nat, r: Record)
    requires ValidOptions(o)
  {
    && r.canonicalClientName == ClientName(ClientIndexAt(o, i))
    && r.canonicalProjectName == ProjectName(ClientIndexAt(o, i), OrdinalAt(o, i))
  }

  lemma RecordReferenced(o: CorpusOptions, c: ScaleCorpus, i: nat)
    requires Grown(o, c) && i < |c.records|
    ensures Referenced(c.records[i], ClientIndexAt(o, i), ProjectIndexAt(o, i)) && NamedAt(o, i, c.records[i])
  {
    hide QuestionsAnswered, Continues, SourceReference, BuildVersion, ClientName, ProjectName, ProjectIndexAt,
      ClientIndexAt, OrdinalAt, CycleAt,
      SystemAt, VisibilityAt, IssueAt, DuplicateAt;
    assert Descends(RecordAt(o, i), c.records[i]);
  }

  lemma SameReference(o: CorpusOptions, i: nat, j: nat, r: Record, s: Record)
    requires ValidOptions(o) && !r.ambiguousAlias && !s.ambiguousAlias && r.sourceSystem == s.sourceSystem
    requires Referenced(r, ClientIndexAt(o, i), ProjectIndexAt(o, i)) && NamedAt(o, i, r)
    requires Referenced(s, ClientIndexAt(o, j), ProjectIndexAt(o, j)) && NamedAt(o, j, s)
    ensures r.sourceClientReference == s.sourceClientReference ==> r.canonicalClientId == s.canonicalClientId
    ensures r.sourceProjectReference == s.sourceProjectReference ==> r.canonicalProjectId == s.canonicalProjectId
  {
    hide SourceReference, ProjectName, ClientName, TitleName, ProjectCount;
    if r.sourceClientReference == s.sourceClientReference {
      ClientNameIsTitle(ClientIndexAt(o, i));
      ClientNameIsTitle(ClientIndexAt(o, j));
      ReferenceInjective(r.sourceSystem, r.canonicalClientName, ClientIndexAt(o, i), s.canonicalClientName,
                         ClientIndexAt(o, j));
    }
    if r.sourceProjectReference == s.sourceProjectReference {
      ProjectNameIsTitle(ClientIndexAt(o, i), OrdinalAt(o, i));
      ProjectNameIsTitle(ClientIndexAt(o, j), OrdinalAt(o, j));
      ReferenceInjective(r.sourceSystem, r.canonicalProjectName, ProjectIndexAt(o, i), s.canonicalProjectName,
                         ProjectIndexAt(o, j));
    }
  }

  /** Two resolved candidates with one source system, key type and external key name the same canonical resource. */
  lemma PromotionIsFunctional(o: CorpusOptions, c: ScaleCorpus, i: nat, j: nat, p: (Id, Candidate), q: (Id, Candidate))
    requires Grown(o, c) && i < |c.records| && j < |c.records|
    requires p in PromotedPairs(c.records[i]) && q in PromotedPairs(c.records[j]) && p.0 == q.0
    ensures p.1.resourceId == q.1.resourceId
  {
    hide RecordsDescend, QuestionsAnswered, Referenced, NamedAt, ClientIndexAt, ProjectIndexAt, OrdinalAt, Latest;
    RecordReferenced(o, c, i);
    RecordReferenced(o, c, j);
    var r, s := c.records[i], c.records[j];
    if r.sourceSystem == s.sourceSystem {
      SameReference(o, i, j, r, s);
    }
  }

  function ResourceNamed(rs: seq<Record>, key: Id): Option<Id> {
    match Get(PromotedKeys(rs), key)
    case None => None
    case Some(candidate) => Some(candidate.resourceId)
  }

  lemma NamedIn(o: CorpusOptions, c: ScaleCorpus, rs: seq<Record>, ss: seq<Record>, key: Id)
    requires Grown(o, c) && (forall r :: r in rs ==> r in c.records) && (forall r :: r in rs ==> r in ss)
    requires ResourceNamed(rs, key).Some? && forall r :: r in ss ==> r in c.records
    ensures ResourceNamed(ss, key) == ResourceNamed(rs, key)
  {
    hide Grown, PromotedPairs;
    GetFromPairs(Flat(rs, PromotedPairs), key);
    var p := (key, Get(PromotedKeys(rs), key).value);
    var i := FlatFrom(rs, PromotedPairs, p);
    assert rs[i] in rs && rs[i] in ss;
    var k :| 0 <= k < |ss| && ss[k] == rs[i];
    FlatHas(ss, PromotedPairs, k, p);
    GetFromPairs(Flat(ss, PromotedPairs), key);
    var n :| 0 <= n < |Flat(ss, PromotedPairs)| && Flat(ss, PromotedPairs)[n] == p;
    var q := (key, Get(PromotedKeys(ss), key).value);
    var j := FlatFrom(ss, PromotedPairs, q);
    assert ss[j] in ss;
    var a :| 0 <= a < |c.records| && c.records[a] == rs[i];
    var b :| 0 <= b < |c.records| && c.records[b] == ss[j];
    PromotionIsFunctional(o, c, a, b, p, q);
  }

  /** The last-write-wins promotion maps the same keys to the same resources in any order of the records. */
  lemma PromotionIgnoresOrder(o: CorpusOptions, c: ScaleCorpus, ss: seq<Record>, key: Id)
    requires Grown(o, c) && forall r :: r in ss <==> r in c.records
    ensures ResourceNamed(ss, key) == ResourceNamed(c.records, key)
  {
    hide Grown, ResourceNamed;
    if ResourceNamed(c.records, key).Some? {
      NamedIn(o, c, c.records, ss, key);
    } else if ResourceNamed(ss, key).Some? {
      NamedIn(o, c, ss, c.records, key);
    }
  }
}
