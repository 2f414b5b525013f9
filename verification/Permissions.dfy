/** The access grants of the benchmark workspace, and that the corpus's `canRead` says the same. */
module Permissions {
  import opened Prelude
  import opened Corpus
  import opened Updates
  import opened Generator
  import opened Lineage

  /** The users of the workspace: the three actors and the one that loads the data. */
  datatype User = UserOf(actor: Actor) | Ingestion

  datatype Principal = AnyUser | InternalTeam | OneUser(user: User)
  datatype Permission = Read | Manage
  datatype Grant = Grant(scope: Visibility, principal: Principal, permission: Permission)

  const TEAM: set<User> := {UserOf(Alex), UserOf(Jamie)}

  const GRANTS: seq<Grant> := [
    Grant(Everyone, AnyUser, Read),
    Grant(Internal, InternalTeam, Read),
    Grant(AlexOnly, OneUser(UserOf(Alex)), Read),
    Grant(JamieOnly, OneUser(UserOf(Jamie)), Read),
    Grant(Everyone, OneUser(Ingestion), Manage),
    Grant(Internal, OneUser(Ingestion), Manage),
    Grant(AlexOnly, OneUser(Ingestion), Manage),
    Grant(JamieOnly, OneUser(Ingestion), Manage)]

  predicate Includes(principal: Principal, user: User) {
    match principal
    case AnyUser => true
    case InternalTeam => user in TEAM
    case OneUser(u) => u == user
  }

  /** `actor_can_access_scope`: some grant of the scope is for everyone, for the user, or for a group of theirs. */
  predicate CanAccessScope(user: User, scope: Visibility) {
    exists g | g in GRANTS :: g.scope == scope && Includes(g.principal, user)
  }

  /** What the corpus expects an actor to read is what the grants let the actor read. */
  lemma ReadIsGranted(actor: Actor, scope: Visibility)
    ensures CanRead(actor, scope) <==> CanAccessScope(UserOf(actor), scope)
  {
    assert GRANTS[0] in GRANTS && GRANTS[1] in GRANTS && GRANTS[2] in GRANTS && GRANTS[3] in GRANTS;
  }

  /** Loading and updating may write rows of every scope. */
  lemma IngestionReachesAll(scope: Visibility)
    ensures exists g :: g in GRANTS && g.scope == scope && g.permission == Manage && Includes(g.principal, Ingestion)
  {
    assert GRANTS[4] in GRANTS && GRANTS[5] in GRANTS && GRANTS[6] in GRANTS && GRANTS[7] in GRANTS;
  }

  /** The live record with the identifier belongs to the project, and whether its grants include the actor. */
  predicate IsEvidence(r: Record, id: Id, project: Id, actor: Actor, granted: bool) {
    && r.id == id && !r.deleted && r.canonicalProjectId == project
    && CanAccessScope(UserOf(actor), r.visibility) == granted
  }

  /** On every reachable corpus a question expects the live records of its project that the grants open to its actor,
      and forbids the live ones that they do not. */
  lemma AnswersFollowGrants(o: CorpusOptions, c: ScaleCorpus, q: Question, id: Id)
    requires Grown(o, c) && q in c.questions
    ensures id in q.expectedRecordIds <==>
            exists r :: r in c.records && IsEvidence(r, id, q.canonicalProjectId, q.actor, true)
    ensures id in q.forbiddenRecordIds <==>
            exists r :: r in c.records && IsEvidence(r, id, q.canonicalProjectId, q.actor, false)
  {
    hide RecordsDescend, EvidenceIds, CanRead, CanAccessScope, DistinctPlaces;
    assert Answered(c.records, q);
    EvidenceIdsMembers(c.records, q.canonicalProjectId, q.actor, true);
    EvidenceIdsMembers(c.records, q.canonicalProjectId, q.actor, false);
    forall r: Record {
      ReadIsGranted(q.actor, r.visibility);
    }
    assert forall r :: IsEvidence(r, id, q.canonicalProjectId, q.actor, true) <==>
                       r.id == id && r.canonicalProjectId == q.canonicalProjectId && !r.deleted
                       && CanRead(q.actor, r.visibility) == true;
  }
}
