/** Question cohorts added to a corpus: `addVocabularyMismatchQuestions`, and what every such addition keeps. */
module Transformers {
  import opened Prelude
  import opened Corpus
  import opened Text
  import opened Updates

  // ---- Adding a cohort

  function Of(qs: seq<Question>, cohort: Cohort): seq<Question> {
    Filter(qs, (q: Question) => q.cohort == cohort)
  }

  function Without(qs: seq<Question>, cohort: Cohort): seq<Question> {
    Filter(qs, (q: Question) => q.cohort != cohort)
  }

  /** The questions of other cohorts, followed by one new question for every exact-name question. */
  function Added(qs: seq<Question>, cohort: Cohort, reword: Question -> Question): seq<Question> {
    Without(qs, cohort) + Map(Of(qs, ExactName), reword)
  }

  lemma OfWithout(qs: seq<Question>, cohort: Cohort)
    requires cohort != ExactName
    ensures Of(Without(qs, cohort), ExactName) == Of(qs, ExactName)
  {
    FilterTwice(qs, (q: Question) => q.cohort != cohort, (q: Question) => q.cohort == ExactName);
  }

  lemma {:induction false} FilterTwice<T>(s: seq<T>, p: T -> bool, q: T -> bool)
    requires forall x :: q(x) ==> p(x)
    ensures Filter(Filter(s, p), q) == Filter(s, q)
  {
    if s != [] {
      FilterTwice(DropLast(s), p, q);
    }
  }

  lemma Parts(a: seq<Question>, b: seq<Question>, cohort: Cohort)
    ensures Of(a + b, cohort) == Of(a, cohort) + Of(b, cohort)
    ensures Without(a + b, cohort) == Without(a, cohort) + Without(b, cohort)
  {
    FilterAppend(a, b, (q: Question) => q.cohort == cohort);
    FilterAppend(a, b, (q: Question) => q.cohort != cohort);
  }

  lemma OneCohort(qs: seq<Question>, cohort: Cohort, other: Cohort)
    requires cohort != other && forall q :: q in qs ==> q.cohort == cohort
    ensures Without(qs, cohort) == [] && Of(qs, other) == []
  {
    FilterNone(qs, (q: Question) => q.cohort != cohort);
    FilterNone(qs, (q: Question) => q.cohort == other);
  }

  lemma WithoutTwice(qs: seq<Question>, cohort: Cohort)
    ensures Without(Without(qs, cohort), cohort) == Without(qs, cohort)
  {
    FilterMembers(qs, (q: Question) => q.cohort != cohort);
    FilterAll(Without(qs, cohort), (q: Question) => q.cohort != cohort);
  }

  /** The exact-name questions stay as they are. */
  lemma AddedKeepsExact(qs: seq<Question>, cohort: Cohort, reword: Question -> Question)
    requires cohort != ExactName && forall q :: reword(q).cohort == cohort
    ensures Of(Added(qs, cohort, reword), ExactName) == Of(qs, ExactName)
    ensures Without(Added(qs, cohort, reword), cohort) == Without(qs, cohort)
  {
    hide Of, Without;
    var more := Map(Of(qs, ExactName), reword);
    Parts(Without(qs, cohort), more, ExactName);
    Parts(Without(qs, cohort), more, cohort);
    OneCohort(more, cohort, ExactName);
    OfWithout(qs, cohort);
    WithoutTwice(qs, cohort);
  }

  /** Adding a cohort a second time changes nothing. */
  lemma AddedTwice(qs: seq<Question>, cohort: Cohort, reword: Question -> Question)
    requires cohort != ExactName && forall q :: reword(q).cohort == cohort
    ensures Added(Added(qs, cohort, reword), cohort, reword) == Added(qs, cohort, reword)
  {
    hide Of, Without;
    AddedKeepsExact(qs, cohort, reword);
  }

  /** Adding a cohort and refreshing the answers commute when the rewording does not look at the answers. */
  lemma AddedRefreshed(rs: seq<Record>, qs: seq<Question>, cohort: Cohort, before: Question -> Question,
                       after: Question -> Question)
    requires forall q :: q in qs && q.cohort == ExactName ==>
                           RefreshQuestion(rs, before(q)) == after(RefreshQuestion(rs, q))
    ensures RefreshQuestions(rs, Added(qs, cohort, before)) == Added(RefreshQuestions(rs, qs), cohort, after)
  {
    hide Filter, RefreshQuestions, RefreshQuestion;
    RefreshFilters(rs, qs, cohort);
    RefreshFilters(rs, qs, ExactName);
    FilterMembers(qs, (q: Question) => q.cohort == ExactName);
    RefreshMap(rs, Of(qs, ExactName), before, after);
    RefreshAppend(rs, Without(qs, cohort), Map(Of(qs, ExactName), before));
  }

  lemma RefreshMap(rs: seq<Record>, qs: seq<Question>, before: Question -> Question, after: Question -> Question)
    requires forall q :: q in qs ==> RefreshQuestion(rs, before(q)) == after(RefreshQuestion(rs, q))
    ensures RefreshQuestions(rs, Map(qs, before)) == Map(RefreshQuestions(rs, qs), after)
  {
    hide RefreshQuestion;
    forall i | 0 <= i < |qs|
      ensures RefreshQuestion(rs, before(qs[i])) == after(RefreshQuestion(rs, qs[i]))
    {
      assert qs[i] in qs;
    }
  }

  lemma RefreshAppend(rs: seq<Record>, a: seq<Question>, b: seq<Question>)
    ensures RefreshQuestions(rs, a + b) == RefreshQuestions(rs, a) + RefreshQuestions(rs, b)
  {
  }

  lemma RefreshFilters(rs: seq<Record>, qs: seq<Question>, cohort: Cohort)
    ensures Of(RefreshQuestions(rs, qs), cohort) == RefreshQuestions(rs, Of(qs, cohort))
    ensures Without(RefreshQuestions(rs, qs), cohort) == RefreshQuestions(rs, Without(qs, cohort))
  {
    var f := (q: Question) => RefreshQuestion(rs, q);
    assert RefreshQuestions(rs, qs) == Map(qs, f);
    assert RefreshQuestions(rs, Of(qs, cohort)) == Map(Of(qs, cohort), f);
    assert RefreshQuestions(rs, Without(qs, cohort)) == Map(Without(qs, cohort), f);
    FilterMap(qs, f, (q: Question) => q.cohort == cohort, (q: Question) => q.cohort == cohort);
    FilterMap(qs, f, (q: Question) => q.cohort != cohort, (q: Question) => q.cohort != cohort);
  }

  // ---- The record that names a project

  /** The first record of a project. */
  function FirstOf(rs: seq<Record>, project: Id): Option<Record> {
    if rs == [] then None
    else match FirstOf(DropLast(rs), project)
         case Some(r) => Some(r)
         case None => if Last(rs).canonicalProjectId == project then Some(Last(rs)) else None
  }

  predicate SameNames(r: Record, s: Record) {
    && r.canonicalProjectId == s.canonicalProjectId
    && r.canonicalProjectName == s.canonicalProjectName && r.canonicalClientName == s.canonicalClientName
  }

  ghost predicate SameNamesAll(rs: seq<Record>, ss: seq<Record>) {
    |rs| == |ss| && forall i :: 0 <= i < |rs| ==> SameNames(rs[i], ss[i])
  }

  lemma {:induction false} FirstOfKept(rs: seq<Record>, ss: seq<Record>, project: Id)
    requires SameNamesAll(rs, ss)
    ensures FirstOf(rs, project).Some? <==> FirstOf(ss, project).Some?
    ensures FirstOf(rs, project).Some? ==> SameNames(FirstOf(rs, project).value, FirstOf(ss, project).value)
  {
    if rs != [] {
      assert SameNames(rs[|rs| - 1], ss[|rs| - 1]);
      FirstOfKept(DropLast(rs), DropLast(ss), project);
    }
  }

  lemma {:induction false} FirstOfMember(rs: seq<Record>, project: Id)
    ensures FirstOf(rs, project).Some? ==>
              FirstOf(rs, project).value in rs && FirstOf(rs, project).value.canonicalProjectId == project
    ensures FirstOf(rs, project).None? ==> forall r :: r in rs ==> r.canonicalProjectId != project
  {
    if rs != [] {
      FirstOfMember(DropLast(rs), project);
      assert rs == DropLast(rs) + [Last(rs)];
    }
  }

  /** What a batch makes of the record at one position. */
  ghost predicate Touched(r: Record, s: Record) {
    s == r || s == r.(deleted := true) || (!r.deleted && s == r.(versions := r.versions + [NextVersion(r)]))
  }

  /** With distinct ids a batch leaves every record in its place, and changes only its versions or its deleted flag. */
  lemma UpdateTouches(c: ScaleCorpus, updateCount: int, deletionEvery: int)
    requires DistinctIds(c.records) && ValidUpdate(c, updateCount, deletionEvery)
    ensures var rs := UpdatedCorpus(c, updateCount, deletionEvery).records;
            |rs| == |c.records| && forall i :: 0 <= i < |rs| ==> Touched(c.records[i], rs[i])
  {
    hide Eligible, UpdatedRecord, Touched, ById, DistinctIds;
    var bs := BatchRecords(c, updateCount, deletionEvery);
    var rs := UpdatedCorpus(c, updateCount, deletionEvery).records;
    ByIdKeys(bs);
    forall i | 0 <= i < |rs|
      ensures Touched(c.records[i], rs[i])
    {
      if c.records[i].id in ById(bs) {
        assert rs[i] in bs && rs[i].id == c.records[i].id;
        var j :| 0 <= j < |bs| && bs[j] == rs[i];
        BatchRecordTouches(Eligible(c)[j], j, deletionEvery);
        EligibleMember(c, j);
        var k :| 0 <= k < |c.records| && c.records[k] == Eligible(c)[j];
        OneIndex(c.records, i, k);
      } else {
        Untouched(rs[i]);
      }
    }
  }

  lemma Untouched(r: Record)
    ensures Touched(r, r)
  {
  }

  lemma OneIndex(rs: seq<Record>, i: nat, k: nat)
    requires DistinctIds(rs) && i < |rs| && k < |rs| && rs[i].id == rs[k].id
    ensures i == k
  {
  }

  lemma EligibleMember(c: ScaleCorpus, j: nat)
    requires j < |Eligible(c)|
    ensures Eligible(c)[j] in c.records && !Eligible(c)[j].deleted
  {
    FilterMembers(c.records, IsLive);
    assert Eligible(c)[j] in Eligible(c);
  }

  lemma BatchRecordTouches(r: Record, index: nat, deletionEvery: nat)
    requires deletionEvery > 0
    ensures UpdatedRecord(r, index, deletionEvery).id == r.id
    ensures !r.deleted ==> Touched(r, UpdatedRecord(r, index, deletionEvery))
  {
  }

  lemma UpdateKeepsNames(c: ScaleCorpus, updateCount: int, deletionEvery: int)
    requires DistinctIds(c.records) && ValidUpdate(c, updateCount, deletionEvery)
    ensures SameNamesAll(c.records, UpdatedCorpus(c, updateCount, deletionEvery).records)
    ensures DistinctIds(UpdatedCorpus(c, updateCount, deletionEvery).records)
  {
    hide UpdatedCorpus;
    UpdateTouches(c, updateCount, deletionEvery);
    var rs := UpdatedCorpus(c, updateCount, deletionEvery).records;
    assert forall i :: 0 <= i < |rs| ==> rs[i].id == c.records[i].id;
  }

  // ---- Vocabulary-mismatch questions

  datatype VocabularyError = NoProjectRecord(question: Id) | NoWording(projectName: string)

  function VocabularyQuery(projectName: string, clientName: string): Option<string> {
    if EndsWith(projectName, " Onboarding") then
      Some("Where are new " + clientName + " applicants getting " + "stuck while opening " + "an account?")
    else if EndsWith(projectName, " Renewal") then
      Some("Why are existing " + clientName + " customers failing " + "to continue " + "their service?")
    else if EndsWith(projectName, " Migration") then
      Some("What obstructs " + clientName + " customers moving " + "onto the " + "replacement platform?")
    else if EndsWith(projectName, " Discovery") then
      Some("What unmet needs " + "are emerging " + "from early customer " + "research for " + clientName + "?")
    else None
  }

  /** The wording for a question's project, if the project has a record and its name a known ending. */
  function Wording(rs: seq<Record>, project: Id): Option<string> {
    match FirstOf(rs, project)
    case None => None
    case Some(r) => VocabularyQuery(r.canonicalProjectName, r.canonicalClientName)
  }

  function VocabularyQuestion(q: Question, query: string): Question {
    q.(id := QuestionId(q.canonicalProjectId, q.actor, VocabularyMismatch, ""),
    cohort := VocabularyMismatch, query := query, lexicalQuery := query)
  }

  function VocabularyReword(rs: seq<Record>): Question -> Question {
    (q: Question) => VocabularyQuestion(q, match Wording(rs, q.canonicalProjectId) case Some(w) => w case None => "")
  }

  ghost predicate VocabularyFits(c: ScaleCorpus) {
    forall q :: q in c.questions && q.cohort == ExactName ==> Wording(c.records, q.canonicalProjectId).Some?
  }

  /** The corpus with its vocabulary-mismatch questions; only used where every exact-name question has a wording. */
  function WithVocabulary(c: ScaleCorpus): ScaleCorpus {
    c.(questions := Added(c.questions, VocabularyMismatch, VocabularyReword(c.records)))
  }

  /** The first loop of `addVocabularyMismatchQuestions`: the first record of every project. */
  method FirstRecords(rs: seq<Record>) returns (firsts: map<Id, Record>)
    ensures forall p :: p in firsts <==> FirstOf(rs, p).Some?
    ensures forall p :: p in firsts ==> FirstOf(rs, p) == Some(firsts[p])
  {
    firsts := map[];
    for i := 0 to |rs|
      invariant forall p :: p in firsts <==> FirstOf(rs[..i], p).Some?
      invariant forall p :: p in firsts ==> FirstOf(rs[..i], p) == Some(firsts[p])
    {
      assert DropLast(rs[..i + 1]) == rs[..i] && Last(rs[..i + 1]) == rs[i];
      if rs[i].canonicalProjectId !in firsts {
        firsts := firsts[rs[i].canonicalProjectId := rs[i]];
      }
    }
    assert rs[..|rs|] == rs;
  }

  /** Why a question is refused. */
  predicate Refuses(rs: seq<Record>, q: Question, error: VocabularyError) {
    match error
    case NoProjectRecord(id) => id == q.id && FirstOf(rs, q.canonicalProjectId).None?
    case NoWording(name) =>
      && FirstOf(rs, q.canonicalProjectId).Some? && FirstOf(rs, q.canonicalProjectId).value.canonicalProjectName == name
      && Wording(rs, q.canonicalProjectId).None?
  }

  /** `addVocabularyMismatchQuestions`: refused at the first exact-name question without a wording. */
  method AddVocabularyMismatchQuestions(c: ScaleCorpus) returns (r: Result<ScaleCorpus, VocabularyError>)
    ensures r.Success? <==> VocabularyFits(c)
    ensures r.Success? ==> r.value == WithVocabulary(c)
    ensures r.Failure? ==> exists q :: q in c.questions && q.cohort == ExactName && Refuses(c.records, q, r.error)
  {
    hide VocabularyQuery, VocabularyQuestion, Filter, FirstOf;
    var firsts := FirstRecords(c.records);
    var base := Without(c.questions, VocabularyMismatch);
    var exact := Of(base, ExactName);
    OfWithout(c.questions, VocabularyMismatch);
    FilterMembers(c.questions, (q: Question) => q.cohort == ExactName);
    var reworded: seq<Question> := [];
    for i := 0 to |exact|
      invariant forall j :: 0 <= j < i ==> Wording(c.records, exact[j].canonicalProjectId).Some?
      invariant reworded == Map(exact[..i], VocabularyReword(c.records))
    {
      var q := exact[i];
      assert q in Of(c.questions, ExactName);
      if q.canonicalProjectId !in firsts {
        return Failure(NoProjectRecord(q.id));
      }
      var record := firsts[q.canonicalProjectId];
      var query := VocabularyQuery(record.canonicalProjectName, record.canonicalClientName);
      if query.None? {
        return Failure(NoWording(record.canonicalProjectName));
      }
      reworded := reworded + [VocabularyQuestion(q, query.value)];
    }
    assert exact[..|exact|] == exact;
    return Success(c.(questions := base + reworded));
  }

  /** Adding the vocabulary-mismatch questions and applying an update commute: both orders are accepted together
      and give the same corpus. */
  lemma VocabularyCommutesWithUpdate(c: ScaleCorpus, updateCount: int, deletionEvery: int)
    requires DistinctIds(c.records) && ValidUpdate(c, updateCount, deletionEvery)
    ensures ValidUpdate(WithVocabulary(c), updateCount, deletionEvery)
    ensures VocabularyFits(UpdatedCorpus(c, updateCount, deletionEvery)) <==> VocabularyFits(c)
    ensures WithVocabulary(UpdatedCorpus(c, updateCount, deletionEvery)) ==
            UpdatedCorpus(WithVocabulary(c), updateCount, deletionEvery)
  {
    hide BatchRecords, EvidenceIds, VocabularyQuery, Added, DistinctIds;
    var u := UpdatedCorpus(c, updateCount, deletionEvery);
    UpdateKeepsNames(c, updateCount, deletionEvery);
    forall p
      ensures Wording(u.records, p) == Wording(c.records, p)
    {
      FirstOfKept(c.records, u.records, p);
    }
    BatchIgnoresQuestions(c, WithVocabulary(c), updateCount, deletionEvery);
    AddedRefreshed(u.records, c.questions, VocabularyMismatch, VocabularyReword(c.records),
                   VocabularyReword(u.records));
    RefreshMembers(u.records, c.questions);
  }

  lemma BatchIgnoresQuestions(c: ScaleCorpus, d: ScaleCorpus, updateCount: int, deletionEvery: int)
    requires c.records == d.records && ValidUpdate(c, updateCount, deletionEvery)
    ensures ValidUpdate(d, updateCount, deletionEvery)
    ensures BatchRecords(c, updateCount, deletionEvery) == BatchRecords(d, updateCount, deletionEvery)
    ensures UpdatedCorpus(c, updateCount, deletionEvery).records == UpdatedCorpus(d, updateCount, deletionEvery).records
  {
  }

  /** Refreshing keeps projects and cohorts, question by question. */
  lemma RefreshMembers(rs: seq<Record>, qs: seq<Question>)
    ensures forall q :: q in qs ==> RefreshQuestion(rs, q) in RefreshQuestions(rs, qs)
    ensures forall q :: q in RefreshQuestions(rs, qs) ==> exists p :: p in qs && q == RefreshQuestion(rs, p)
  {
    var refreshed := RefreshQuestions(rs, qs);
    forall q | q in qs
      ensures RefreshQuestion(rs, q) in refreshed
    {
      var i :| 0 <= i < |qs| && qs[i] == q;
      assert refreshed[i] == RefreshQuestion(rs, q);
    }
    forall q | q in refreshed
      ensures exists p :: p in qs && q == RefreshQuestion(rs, p)
    {
      var i :| 0 <= i < |refreshed| && refreshed[i] == q;
      assert qs[i] in qs && q == RefreshQuestion(rs, qs[i]);
    }
  }

  /** Adding them twice is adding them once. */
  lemma VocabularyIsIdempotent(c: ScaleCorpus)
    requires VocabularyFits(c)
    ensures VocabularyFits(WithVocabulary(c)) && WithVocabulary(WithVocabulary(c)) == WithVocabulary(c)
  {
    AddedTwice(c.questions, VocabularyMismatch, VocabularyReword(c.records));
    FilterMembers(c.questions, (q: Question) => q.cohort != VocabularyMismatch);
  }
}
