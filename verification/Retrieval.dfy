/** The permissioned searches over a reached database: what they return, and what that means for the metrics. */
module Retrieval {
  import opened Prelude
  import opened Corpus
  import opened RecordRows
  import opened ScaleTables
  import opened ScaleState
  import opened ScaleConstraints
  import opened ScaleReachable
  import opened ScaleRuns
  import opened Updates
  import opened Generator
  import opened Permissions
  import opened Lineage
  import opened Bodies
  import opened Citations
  import opened Validator
  import opened CorpusRuns
  import opened Ranking
  import opened Metrics

  /** The rows a search may return to an actor: active documents in a scope that the grants open to the
      actor, of such a resource. */
  predicate Permitted(db: Db, actor: Actor, k: Id) {
    && k in db.documents && db.documents[k].active && CanAccessScope(UserOf(actor), db.documents[k].scope)
    && db.documents[k].resourceId in db.resources
    && CanAccessScope(UserOf(actor), db.resources[db.documents[k].resourceId].scope)
  }

  /** `permissioned_lexical_search`: permitted documents, at most one of each resource. */
  predicate LexicalRows(db: Db, actor: Actor, rows: seq<Id>) {
    && (forall i :: 0 <= i < |rows| ==> Permitted(db, actor, rows[i]))
    && (forall i, j :: 0 <= i < j < |rows| ==> db.documents[rows[i]].resourceId != db.documents[rows[j]].resourceId)
  }

  /** The two resource searches: resources with a permitted document, each at most once. */
  predicate ResourceRows(db: Db, actor: Actor, rows: seq<Id>) {
    && Distinct(rows)
    && (forall i :: 0 <= i < |rows| ==> HasPermitted(db, actor, rows[i]))
  }

  predicate HasPermitted(db: Db, actor: Actor, resource: Id) {
    exists k | k in db.documents :: Permitted(db, actor, k) && db.documents[k].resourceId == resource
  }

  /** SQL NULL; no record has this identifier. */
  const NULL_ID: Id := BlindCaseId("")

  /** `resource.properties ->> 'benchmarkRecordId'` of the resource of a document. */
  function RecordOf(db: Db, k: Id): Id {
    if k in db.documents && db.documents[k].resourceId in db.resources then
      match db.resources[db.documents[k].resourceId].properties.benchmarkRecordId
      case Some(record) => record
      case None => NULL_ID
    else NULL_ID
  }

  function ReturnedRecords(db: Db, search: Question -> seq<Id>): Question -> seq<Id> {
    (q: Question) => Map(search(q), (k: Id) => RecordOf(db, k))
  }

  // ---- A permitted row is a live record that the actor can read

  lemma DocumentScope(o: Id, e: Entry, k: Id)
    requires WellFormedEntry(o, e) && DocumentOf(e, k).Some?
    ensures DocumentOf(e, k).value.scope == e.record.visibility
    ensures DocumentOf(e, k).value.active ==> !e.record.deleted
    ensures Owner(EvidenceResource(o)) == o && ResourceOf(e, EvidenceResource(o)).Some?
    ensures ResourceOf(e, EvidenceResource(o)).value.properties.benchmarkRecordId == Some(o)
  {
  }

  lemma PermittedRecord(db: Db, m: EntryMap, rs: seq<Record>, actor: Actor, k: Id) returns (i: nat)
    requires Tracks(db, m, rs) && Permitted(db, actor, k)
    ensures i < |rs| && RecordOf(db, k) == rs[i].id && db.documents[k].resourceId == EvidenceResource(rs[i].id)
    ensures !rs[i].deleted && CanRead(actor, rs[i].visibility)
  {
    hide HoldsKeys, EntriesOf, SharedRows, WellFormedEntry, DocumentOf, ResourceOf, Owner, AssertionOf, VersionOf;
    var o := Owner(k);
    DocumentRefers(o, m[o], k);
    DocumentScope(o, m[o], k);
    i := EntryRecord(m, rs, o);
    ReadIsGranted(actor, rs[i].visibility);
  }

  lemma ReturnedAreDistinct(db: Db, m: EntryMap, rs: seq<Record>, actor: Actor, rows: seq<Id>)
    requires Tracks(db, m, rs) && LexicalRows(db, actor, rows)
    ensures Distinct(Map(rows, (k: Id) => RecordOf(db, k)))
  {
    hide Tracks, RecordOf, Permitted;
    forall i, j | 0 <= i < j < |rows|
      ensures RecordOf(db, rows[i]) != RecordOf(db, rows[j])
    {
      var a := PermittedRecord(db, m, rs, actor, rows[i]);
      var b := PermittedRecord(db, m, rs, actor, rows[j]);
    }
  }

  /** A live record that the actor can read is not forbidden. */
  lemma ReadableIsAllowed(rs: seq<Record>, q: Question, i: nat)
    requires DistinctIds(rs) && Answered(rs, q) && i < |rs| && CanRead(q.actor, rs[i].visibility)
    ensures rs[i].id !in Elements(q.forbiddenRecordIds)
  {
    hide EvidenceIds, CanRead;
    EvidenceIdsMembers(rs, q.canonicalProjectId, q.actor, false);
    forall r | r in rs && r.id == rs[i].id
      ensures r == rs[i]
    {
      OneRecord(rs, r, rs[i]);
    }
  }

  lemma LexicalAllowed(db: Db, m: EntryMap, rs: seq<Record>, q: Question, rows: seq<Id>)
    requires Tracks(db, m, rs) && LexicalRows(db, q.actor, rows) && Answered(rs, q)
    ensures CountIn(Map(rows, (k: Id) => RecordOf(db, k)), Elements(q.forbiddenRecordIds)) == 0
  {
    hide Tracks, RecordOf, Permitted, Answered, CountIn, Elements;
    var returned := Map(rows, (k: Id) => RecordOf(db, k));
    TrackedEntries(db, m, rs);
    forall id | id in returned
      ensures id !in Elements(q.forbiddenRecordIds)
    {
      var j :| 0 <= j < |rows| && returned[j] == id;
      var i := PermittedRecord(db, m, rs, q.actor, rows[j]);
      ReadableIsAllowed(rs, q, i);
    }
    CountsNothing(returned, Elements(q.forbiddenRecordIds));
  }

  // ---- What an actor is expected to find can be found

  lemma FirstBody(o: CorpusOptions, i: nat)
    requires ValidOptions(o)
    ensures RecordAt(o, i).versions != [] && RecordAt(o, i).versions[0].body != ""
  {
    hide RecordAt, BodyTail, IssueAt, DuplicateMarkerAt, Conclusion, Revision;
    GeneratedVersion(o, i, 0);
    var r := RecordAt(o, i);
    match r.sourceSystem case Research => case Meetings => case Crm => case Documents => case Messages =>
  }

  lemma LatestBody(o: CorpusOptions, c: ScaleCorpus, i: nat)
    requires Grown(o, c) && i < |c.records|
    ensures c.records[i].versions != [] && Last(c.records[i].versions).body != ""
  {
    hide RecordAt, QuestionsAnswered, Continues;
    FirstBody(o, i);
    assert Descends(RecordAt(o, i), c.records[i]);
    VersionsDiffer(o, c, i);
    var vs := c.records[i].versions;
    assert vs[0] == RecordAt(o, i).versions[0];
    assert |vs| > 1 ==> |vs[0].body| <= |vs[|vs| - 1].body|;
  }

  lemma DocumentFound(db: Db, m: EntryMap, rs: seq<Record>, i: nat, actor: Actor) returns (k: Id)
    requires Tracks(db, m, rs) && i < |rs| && !rs[i].deleted && CanRead(actor, rs[i].visibility)
    requires rs[i].versions != [] && Last(rs[i].versions).body != ""
    ensures Permitted(db, actor, k) && RecordOf(db, k) == rs[i].id
  {
    hide Tracks, CanRead, CanAccessScope, DocumentIsTrue;
    CurrentTextIsSearchable(db, m, rs, i, 0);
    k :| k in db.documents && Covers(db, db.documents[k], rs[i], 0);
    var j, n := DocumentPlace(db, m, rs, k);
    RowsAreStored(db, m, rs, i);
    TrackedEntries(db, m, rs);
    SameRecord(rs, i, j);
    ReadIsGranted(actor, rs[i].visibility);
  }

  lemma SameRecord(rs: seq<Record>, i: nat, j: nat)
    requires WellFormed(rs) && i < |rs| && j < |rs| && rs[i].id == rs[j].id
    ensures i == j
  {
  }

  /** After any run on a generated corpus, every record that a question expects can be returned to its actor: it has an
      active document that the grants open. */
  lemma ExpectedCanBeFound(o: CorpusOptions, c: ScaleCorpus, steps: seq<UpdateStep>, q: Question, id: Id)
    returns (k: Id)
    requires Grown(o, c) && RunFits(c, steps)
    requires q in FinalCorpus(c, steps).questions && id in q.expectedRecordIds
    ensures Permitted(Reached(c, steps), q.actor, k) && RecordOf(Reached(c, steps), k) == id
  {
    hide Reached, FinalCorpus, Tracks, Anchored, Validates, WellFormed, RecordOf, ReachedEntries, Permitted, CanRead,
      EvidenceIds, RecordsDescend;
    var db, m, last := Reached(c, steps), ReachedEntries(c, steps), FinalCorpus(c, steps);
    GrownValidates(o, c);
    ReachedTracks(c, steps);
    RunKeepsGrown(o, c, steps);
    assert Answered(last.records, q);
    EvidenceIdsMembers(last.records, q.canonicalProjectId, q.actor, true);
    var r :| r in last.records && r.id == id && r.canonicalProjectId == q.canonicalProjectId && !r.deleted
             && CanRead(q.actor, r.visibility) == true;
    var i :| 0 <= i < |last.records| && last.records[i] == r;
    LatestBody(o, last, i);
    k := DocumentFound(db, m, last.records, i, q.actor);
  }

  // ---- The lexical evaluation of a reached database

  lemma QuestionsByActor(qs: seq<Question>)
    ensures forall q :: q in ByActor(qs) ==> q in qs
  {
    FilterMembers(qs, (q: Question) => q.actor == Alex);
    FilterMembers(qs, (q: Question) => q.actor == Jamie);
    FilterMembers(qs, (q: Question) => q.actor == Morgan);
  }

  /** The figures of a ledger are fractions and nothing leaks. */
  predicate Safe(t: Tally) {
    InUnit(Published(t)) && Published(t).recall <= 1.0 && Published(t).leaks == 0
  }

  lemma SafeLedger(overall: Tally, cohorts: map<Cohort, Tally>, done: seq<Question>, returnedOf: Question -> seq<Id>,
                   k: Cohort)
    requires Ledger(overall, cohorts, done, returnedOf)
    requires forall q :: q in done ==>
                           Distinct(returnedOf(q)) && CountIn(returnedOf(q), Elements(q.forbiddenRecordIds)) == 0
    ensures Safe(overall) && Safe(CohortOf(cohorts, k))
  {
    hide Distinct, CountIn, InUnit, InCohort, TotalOf, Reconciled;
    LedgerMetrics(overall, cohorts, done, returnedOf, k);
    CohortQuestions(done, k);
    NothingLeaks(done, returnedOf);
    NothingLeaks(InCohort(done, k), returnedOf);
  }

  lemma GrownAnswers(o: CorpusOptions, c: ScaleCorpus)
    requires Grown(o, c)
    ensures forall q :: q in ByActor(c.questions) ==> Answered(c.records, q)
  {
    hide Answered, RecordsDescend, DistinctPlaces, ByActor;
    QuestionsByActor(c.questions);
  }

  /** Evaluating the questions of a generated corpus on its database, after any run of batches: all figures are
      fractions, overall and per cohort, and no forbidden record is ever returned. */
  lemma LexicalEvaluationIsSafe(o: CorpusOptions, c: ScaleCorpus, steps: seq<UpdateStep>, search: Question -> seq<Id>,
                                overall: Tally, cohorts: map<Cohort, Tally>, k: Cohort)
    requires Grown(o, c) && RunFits(c, steps)
    requires forall q: Question :: LexicalRows(Reached(c, steps), q.actor, search(q))
    requires Ledger(overall, cohorts, ByActor(FinalCorpus(c, steps).questions),
                    ReturnedRecords(Reached(c, steps), search))
    ensures Safe(overall) && Safe(CohortOf(cohorts, k))
  {
    hide Grown, Reached, FinalCorpus, Tracks, LexicalRows, Answered, Ledger, Safe, Distinct, CountIn, Anchored,
      Validates,
      WellFormed, ByActor, RecordOf, ReachedEntries;
    var db, m, last := Reached(c, steps), ReachedEntries(c, steps), FinalCorpus(c, steps);
    GrownValidates(o, c);
    ReachedTracks(c, steps);
    RunKeepsGrown(o, c, steps);
    GrownAnswers(o, last);
    var returnedOf := ReturnedRecords(db, search);
    forall q | q in ByActor(last.questions)
      ensures Distinct(returnedOf(q)) && CountIn(returnedOf(q), Elements(q.forbiddenRecordIds)) == 0
    {
      ReturnedAreDistinct(db, m, last.records, q.actor, search(q));
      LexicalAllowed(db, m, last.records, q, search(q));
    }
    SafeLedger(overall, cohorts, ByActor(last.questions), returnedOf, k);
  }

  // ---- The three channels

  lemma ResourcesAllowed(db: Db, m: EntryMap, rs: seq<Record>, q: Question, rows: seq<Id>, known: set<Id>)
    requires Tracks(db, m, rs) && ResourceRows(db, q.actor, rows) && Answered(rs, q)
    ensures Distinct(RecordsIn(rows, known))
    ensures forall id :: id in RecordsIn(rows, known) ==> id !in Elements(q.forbiddenRecordIds)
  {
    hide Tracks, Permitted, Answered, Elements, Distinct;
    RecordsInDistinct(rows, known);
    TrackedEntries(db, m, rs);
    forall id | id in RecordsIn(rows, known)
      ensures id !in Elements(q.forbiddenRecordIds)
    {
      var j :| 0 <= j < |rows| && rows[j] == EvidenceResource(id);
      assert HasPermitted(db, q.actor, rows[j]);
      var k :| Permitted(db, q.actor, k) && k in db.documents && db.documents[k].resourceId == rows[j];
      var i := PermittedRecord(db, m, rs, q.actor, k);
      ReadableIsAllowed(rs, q, i);
    }
  }

  lemma ChannelAllowed(db: Db, m: EntryMap, rs: seq<Record>, q: Question, lexicalRows: Question -> seq<Id>,
                       semanticRows: Question -> seq<Id>, known: set<Id>, localeAtMost: (Id, Id) -> bool, limit: nat,
                       channel: Channel)
    requires TotalOrder(localeAtMost) && Tracks(db, m, rs) && Answered(rs, q)
    requires ResourceRows(db, q.actor, lexicalRows(q)) && ResourceRows(db, q.actor, semanticRows(q))
    ensures var returned := ReturnedBy(ResultsFor(lexicalRows, semanticRows, known, localeAtMost, limit), channel)(q);
            Distinct(returned) && CountIn(returned, Elements(q.forbiddenRecordIds)) == 0
  {
    hide Tracks, Permitted, Answered, CountIn, Elements, ResourceRows, HybridRecords, Distinct, TotalOrder, ScoreOf;
    ResourcesAllowed(db, m, rs, q, lexicalRows(q), known);
    ResourcesAllowed(db, m, rs, q, semanticRows(q), known);
    HybridKeepsTheBest(RecordsIn(lexicalRows(q), known), RecordsIn(semanticRows(q), known), localeAtMost, limit);
    var returned := ReturnedBy(ResultsFor(lexicalRows, semanticRows, known, localeAtMost, limit), channel)(q);
    var results := ResultsFor(lexicalRows, semanticRows, known, localeAtMost, limit)(q);
    assert returned == ListOf(results, channel);
    match channel {
      case LexicalChannel => assert returned == RecordsIn(lexicalRows(q), known);
      case SemanticChannel => assert returned == RecordsIn(semanticRows(q), known);
      case HybridChannel =>
    }
    CountsNothing(returned, Elements(q.forbiddenRecordIds));
  }

  /** The same for the three channels of the semantic benchmark. */
  lemma ChannelEvaluationIsSafe(o: CorpusOptions, c: ScaleCorpus, steps: seq<UpdateStep>,
                                lexicalRows: Question -> seq<Id>, semanticRows: Question -> seq<Id>,
                                known: set<Id>, localeAtMost: (Id, Id) -> bool, limit: nat,
                                overall: Channels, cohorts: map<Cohort, Channels>, channel: Channel, k: Cohort)
    requires Grown(o, c) && RunFits(c, steps) && TotalOrder(localeAtMost)
    requires forall q: Question :: ResourceRows(Reached(c, steps), q.actor, lexicalRows(q))
                                   && ResourceRows(Reached(c, steps), q.actor, semanticRows(q))
    requires Ledgers(overall, cohorts, ByActor(FinalCorpus(c, steps).questions),
                     ResultsFor(lexicalRows, semanticRows, known, localeAtMost, limit))
    ensures Safe(TallyOf(overall, channel)) && Safe(CohortOf(CohortTallies(cohorts, channel), k))
  {
    hide Grown, Reached, FinalCorpus, Tracks, ResourceRows, Answered, Ledger, Safe, Distinct, CountIn, Anchored,
      Validates,
      WellFormed, ByActor, ReachedEntries, ResultsFor, TotalOrder, ReturnedBy, TallyOf, CohortTallies;
    var db, m, last := Reached(c, steps), ReachedEntries(c, steps), FinalCorpus(c, steps);
    GrownValidates(o, c);
    ReachedTracks(c, steps);
    RunKeepsGrown(o, c, steps);
    GrownAnswers(o, last);
    var resultsOf := ResultsFor(lexicalRows, semanticRows, known, localeAtMost, limit);
    var returnedOf := ReturnedBy(resultsOf, channel);
    forall q | q in ByActor(last.questions)
      ensures Distinct(returnedOf(q)) && CountIn(returnedOf(q), Elements(q.forbiddenRecordIds)) == 0
    {
      ChannelAllowed(db, m, last.records, q, lexicalRows, semanticRows, known, localeAtMost, limit, channel);
    }
    assert Ledger(TallyOf(overall, channel), CohortTallies(cohorts, channel), ByActor(last.questions), returnedOf);
    SafeLedger(TallyOf(overall, channel), CohortTallies(cohorts, channel), ByActor(last.questions), returnedOf, k);
  }
}
