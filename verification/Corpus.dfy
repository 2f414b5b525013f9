/** The benchmark corpus as data: records, versions, questions and the identifiers made by `stableId`. */
module Corpus {
  import opened Prelude

  datatype SourceSystem = Research | Meetings | Crm | Documents | Messages
  datatype Visibility = Everyone | Internal | AlexOnly | JamieOnly
  datatype Actor = Alex | Jamie | Morgan
  datatype Stance = Supports | Contradicts
  datatype Cohort = ExactName | VocabularyMismatch | HumanAuthored
  datatype KeyType = ClientRef | ProjectRef

  const SOURCE_SYSTEMS: seq<SourceSystem> := [Research, Meetings, Crm, Documents, Messages]
  const VISIBILITIES: seq<Visibility> := [Everyone, Internal, AlexOnly, JamieOnly]
  const ACTORS: seq<Actor> := [Alex, Jamie, Morgan]

  /** `stableId(namespace, value)`: one constructor per namespace, its arguments the parts of the value,
      so that identifiers are equal exactly when namespace and value are. */
  datatype Id =
    | ClientId(name: string)
    | ProjectId(name: string)
    | RecordId(seed: int, index: nat)
    | ContentHash(body: string)
    | QuestionId(project: Id, actor: Actor, cohort: Cohort, wording: string)
    | SourceId(system: SourceSystem)
    | ContentResource(record: Id)
    | EvidenceResource(record: Id)
    | HypothesisResource(project: Id)
    | SourceObjectId(record: Id)
    | SourceVersionId(record: Id, version: int)
    | ContentVersionId(record: Id, version: int)
    | RelationshipId(evidence: Id, stance: Stance, hypothesis: Id)
    | AssertionId(record: Id)
    | AssertionUpdateId(record: Id, version: int)
    | ProvenanceId(record: Id)
    | ProvenanceUpdateId(record: Id, version: int)
    | DocumentId(record: Id, chunk: int)
    | DocumentUpdateId(record: Id, version: int, chunk: int)
    | CandidateId(record: Id, keyType: KeyType, resource: Id)
    | AliasId(client: Id)
    | IdentityKeyId(system: SourceSystem, keyType: KeyType, key: string)
    | SyncRunId(seed: int, system: SourceSystem)
    | SyncRunUpdateId(seed: int, system: SourceSystem, size: nat)
    | BlindCaseId(caseName: string)

  /** `updatedAt` is a time in milliseconds. */
  datatype Version = Version(
    version: int, title: string, body: string, updatedAt: int, stance: Stance, contentHashKey: Id)

  /** The external identifier and URI of a source object, built from the same three parts. */
  datatype External = External(system: SourceSystem, seed: int, index: nat)

  datatype Record = Record(
    id: Id,
    sourceSystem: SourceSystem,
    external: External,
    canonicalClientId: Id,
    canonicalClientName: string,
    canonicalProjectId: Id,
    canonicalProjectName: string,
    sourceClientReference: string,
    sourceProjectReference: string,
    visibility: Visibility,
    versions: seq<Version>,
    duplicateOf: Option<Id>,
    deleted: bool,
    ambiguousAlias: bool)

  datatype Question = Question(
    id: Id,
    actor: Actor,
    cohort: Cohort,
    query: string,
    lexicalQuery: string,
    canonicalProjectId: Id,
    expectedRecordIds: seq<Id>,
    forbiddenRecordIds: seq<Id>)

  datatype ScaleCorpus = ScaleCorpus(seed: int, records: seq<Record>, questions: seq<Question>)

  datatype UpdateBatch = UpdateBatch(corpus: ScaleCorpus, records: seq<Record>, revisions: nat, deletions: nat)

  const NO_VERSION := Version(0, "", "", 0, Supports, ContentHash(""))

  /** `record.versions.at(-1)!`; every operation that uses it is given records with a version. */
  function Latest(r: Record): Version {
    if r.versions == [] then NO_VERSION else Last(r.versions)
  }

  function First(r: Record): Version {
    if r.versions == [] then NO_VERSION else r.versions[0]
  }

  predicate CanRead(actor: Actor, visibility: Visibility) {
    match visibility
    case Everyone => true
    case Internal => actor != Morgan
    case AlexOnly => actor == Alex
    case JamieOnly => actor == Jamie
  }

  predicate IsLive(r: Record) { !r.deleted }
  predicate IsDeleted(r: Record) { r.deleted }
  predicate IsDuplicate(r: Record) { r.duplicateOf.Some? }

  function ProjectOf(r: Record): Id { r.canonicalProjectId }

  function RecordIds(rs: seq<Record>): seq<Id> {
    Map(rs, (r: Record) => r.id)
  }

  predicate DistinctIds(rs: seq<Record>) {
    forall i, j :: 0 <= i < j < |rs| ==> rs[i].id != rs[j].id
  }

  /** `new Map(records.map(record => [record.id, record]))`: the last record with an id wins. */
  function ById(rs: seq<Record>): map<Id, Record> {
    if rs == [] then map[] else ById(DropLast(rs))[Last(rs).id := Last(rs)]
  }

  /** `records.map(record => updates.get(record.id) ?? record)` */
  function Replaced(rs: seq<Record>, updates: seq<Record>): seq<Record> {
    Map(rs, (r: Record) => if r.id in ById(updates) then ById(updates)[r.id] else r)
  }

  lemma {:induction false} ByIdKeys(rs: seq<Record>)
    ensures forall k :: k in ById(rs) <==> exists i :: 0 <= i < |rs| && rs[i].id == k
    ensures forall k :: k in ById(rs) ==> ById(rs)[k] in rs && ById(rs)[k].id == k
  {
    if rs != [] {
      ByIdKeys(DropLast(rs));
      forall k
        ensures k in ById(rs) <==> exists i :: 0 <= i < |rs| && rs[i].id == k
      {
        if k in ById(DropLast(rs)) {
          var i :| 0 <= i < |rs| - 1 && DropLast(rs)[i].id == k;
          assert rs[i].id == k;
        }
        if i :| 0 <= i < |rs| && rs[i].id == k {
          if i < |rs| - 1 {
            assert DropLast(rs)[i].id == k;
          }
        }
      }
    }
  }

  lemma {:induction false} ByIdAt(rs: seq<Record>, i: nat)
    requires DistinctIds(rs) && i < |rs|
    ensures rs[i].id in ById(rs) && ById(rs)[rs[i].id] == rs[i]
  {
    if i < |rs| - 1 {
      ByIdAt(DropLast(rs), i);
    }
  }

  /** A record list as validation leaves it: distinct ids, versions numbered from 1 without gaps,
      and every identifier made in its own namespace. */
  ghost predicate WellFormed(rs: seq<Record>) {
    && DistinctIds(rs)
    && forall i :: 0 <= i < |rs| ==> WellFormedRecord(rs[i])
  }

  ghost predicate WellFormedRecord(r: Record) {
    && r.id.RecordId? && r.canonicalClientId.ClientId? && r.canonicalProjectId.ProjectId?
    && r.versions != []
    && forall i :: 0 <= i < |r.versions| ==> r.versions[i].version == i + 1
  }
}
