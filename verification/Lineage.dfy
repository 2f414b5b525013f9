/** What every operation on a generated corpus keeps: each record descends from the one the generator made. */
module Lineage {
  import opened Prelude
  import opened Corpus
  import opened Json
  import opened Text
  import opened Updates
  import opened Generator
  import opened Transformers
  import opened HumanQuestions

  // ---- Records

  /** A title ends with the number of its version. */
  predicate TitleNumbered(v: Version) {
    v.version >= 0 ==> EndsWith(v.title, "(v" + Decimal(v.version) + ")")
  }

  /** One update appended: the next number, a year later, the same stance, and a body that continues the previous
      one. */
  predicate Continues(v: Version, w: Version) {
    && w.version == v.version + 1 && w.stance == v.stance && w.updatedAt == v.updatedAt + YEAR_MS
    && |v.body| < |w.body| && w.body[..|v.body|] == v.body && w.contentHashKey == ContentHash(w.body)
    && TitleNumbered(w)
  }

  lemma EndOfTitle(head: string, digits: string)
    ensures EndsWith(head + "(v" + digits + ")", "(v" + digits + ")")
  {
  }

  ghost predicate Descends(base: Record, r: Record) {
    && r == base.(versions := r.versions, deleted := r.deleted)
    && (base.deleted ==> r.deleted)
    && base.versions != [] && base.versions <= r.versions
    && forall i :: |base.versions| <= i < |r.versions| ==> Continues(r.versions[i - 1], r.versions[i])
  }

  lemma NextContinues(r: Record)
    requires r.versions != []
    ensures Continues(Last(r.versions), NextVersion(r))
  {
    var latest, next := Last(r.versions), NextVersion(r);
    assert next.body[..|latest.body|] == latest.body;
    if next.version >= 0 {
      var head, digits := r.canonicalProjectName + ": incremental evidence refresh ", Decimal(next.version);
      EndOfTitle(head, digits);
      assert next.title == head + "(v" + digits + ")";
    }
  }

  lemma TouchedDescends(base: Record, r: Record, s: Record)
    requires Descends(base, r) && Touched(r, s)
    ensures Descends(base, s)
  {
    hide Continues, NextVersion;
    if s == r.(versions := r.versions + [NextVersion(r)]) {
      NextContinues(r);
      var n := |r.versions|;
      forall i | |base.versions| <= i < n + 1
        ensures Continues(s.versions[i - 1], s.versions[i])
      {
        if i < n {
          assert s.versions[i - 1] == r.versions[i - 1] && s.versions[i] == r.versions[i];
        } else {
          assert s.versions[i - 1] == Last(r.versions) && s.versions[i] == NextVersion(r);
        }
      }
    }
  }

  // ---- Questions

  /** A question with its identifier made from its parts and its answers those of the records, about a project that has
      one. */
  ghost predicate Answered(rs: seq<Record>, q: Question) {
    && q.id.QuestionId? && q.id.project == q.canonicalProjectId && q.id.actor == q.actor && q.id.cohort == q.cohort
    && q.expectedRecordIds == EvidenceIds(rs, q.canonicalProjectId, q.actor, true)
    && q.forbiddenRecordIds == EvidenceIds(rs, q.canonicalProjectId, q.actor, false)
    && FirstOf(rs, q.canonicalProjectId).Some?
  }

  predicate SamePlace(p: Question, q: Question) {
    p.cohort == q.cohort && p.canonicalProjectId == q.canonicalProjectId && p.actor == q.actor
  }

  /** No two questions of a cohort share project and actor. */
  ghost predicate DistinctPlaces(qs: seq<Question>) {
    forall i, j :: 0 <= i < j < |qs| ==> !SamePlace(qs[i], qs[j])
  }

  ghost predicate RecordsDescend(o: CorpusOptions, rs: seq<Record>)
    requires ValidOptions(o)
  {
    |rs| == o.recordCount && forall i :: 0 <= i < |rs| ==> Descends(RecordAt(o, i), rs[i])
  }

  ghost predicate QuestionsAnswered(c: ScaleCorpus) {
    (forall q :: q in c.questions ==> Answered(c.records, q)) && DistinctPlaces(c.questions)
  }

  /** The invariant: `c` was made from the options `o`. */
  ghost predicate Grown(o: CorpusOptions, c: ScaleCorpus) {
    ValidOptions(o) && c.seed == o.seed && RecordsDescend(o, c.records) && QuestionsAnswered(c)
  }

  // ---- The generator establishes it

  lemma BaseDescends(o: CorpusOptions, i: nat)
    requires ValidOptions(o)
    ensures Descends(RecordAt(o, i), RecordAt(o, i))
  {
    hide BuildVersion, SourceReference, SystemAt, VisibilityAt, ClientName, ProjectName, ProjectIndexAt,
      ClientIndexAt, CycleAt, OrdinalAt, IssueAt;
  }

  lemma {:induction false} ExactQuestionsAnswered(rs: seq<Record>, projects: seq<Id>)
    requires Distinct(projects) && forall i :: 0 <= i < |projects| ==> HasLiveRecord(rs, projects[i])
    ensures forall q :: q in ExactQuestions(rs, projects) ==>
                          Answered(rs, q) && q.cohort == ExactName && q.canonicalProjectId in projects
    ensures DistinctPlaces(ExactQuestions(rs, projects))
  {
    hide EvidenceIds, ProjectRecords;
    if projects != [] {
      var d, p := DropLast(projects), Last(projects);
      ExactQuestionsAnswered(rs, d);
      LiveProjectHasFirst(rs, p);
      var a, b := ExactQuestions(rs, d), ProjectQuestions(rs, p);
      assert projects == d + [p];
      forall i, j | 0 <= i < j < |a + b|
        ensures !SamePlace((a + b)[i], (a + b)[j])
      {
        if j < |a| {
          assert !SamePlace(a[i], a[j]);
        } else if i < |a| {
          assert a[i] in a && b[j - |a|].canonicalProjectId == p && p !in d;
        }
      }
    }
  }

  lemma LiveProjectHasFirst(rs: seq<Record>, project: Id)
    requires HasLiveRecord(rs, project)
    ensures FirstOf(rs, project).Some?
  {
    ProjectRecordsMembers(rs, project);
    assert ProjectRecords(rs, project)[0] in ProjectRecords(rs, project);
    FirstOfMember(rs, project);
  }

  lemma SelectedAreDistinct(o: CorpusOptions, rs: seq<Record>)
    requires ValidOptions(o)
    ensures Distinct(SelectedProjects(o, rs))
  {
    UniqueIsSet(Map(rs, ProjectOf));
  }

  /** What the generator makes has the invariant. */
  lemma GeneratedIsGrown(o: CorpusOptions)
    requires ValidOptions(o) && ProjectsAreLive(o)
    ensures Grown(o, CorpusOf(o))
  {
    hide RecordAt, Descends, Answered, SelectedProjects, HasLiveRecord, ExactQuestions, DistinctPlaces;
    var rs := RecordsOf(o, o.recordCount);
    forall i | 0 <= i < |rs|
      ensures Descends(RecordAt(o, i), rs[i])
    {
      BaseDescends(o, i);
    }
    SelectedAreDistinct(o, rs);
    ExactQuestionsAnswered(rs, SelectedProjects(o, rs));
  }

  // ---- Every operation keeps it

  lemma GrownIds(o: CorpusOptions, c: ScaleCorpus)
    requires Grown(o, c)
    ensures DistinctIds(c.records)
    ensures forall i :: 0 <= i < |c.records| ==> c.records[i].id == RecordId(o.seed, i)
  {
    hide QuestionsAnswered, RecordAt, Continues;
    forall i | 0 <= i < |c.records|
      ensures c.records[i].id == RecordId(o.seed, i)
    {
      assert Descends(RecordAt(o, i), c.records[i]);
      RecordAtId(o, i);
    }
  }

  lemma UpdateKeepsGrown(o: CorpusOptions, c: ScaleCorpus, updateCount: int, deletionEvery: int)
    requires Grown(o, c) && ValidUpdate(c, updateCount, deletionEvery)
    ensures Grown(o, UpdatedCorpus(c, updateCount, deletionEvery))
  {
    hide RecordAt, Descends, Touched, DistinctIds, BatchRecords, Replaced, SameNames, EvidenceIds, FirstOf;
    GrownIds(o, c);
    UpdateTouches(c, updateCount, deletionEvery);
    UpdateKeepsNames(c, updateCount, deletionEvery);
    var u := UpdatedCorpus(c, updateCount, deletionEvery);
    forall i | 0 <= i < |u.records|
      ensures Descends(RecordAt(o, i), u.records[i])
    {
      TouchedDescends(RecordAt(o, i), c.records[i], u.records[i]);
    }
    RefreshMembers(u.records, c.questions);
    forall q | q in u.questions
      ensures Answered(u.records, q)
    {
      var p :| p in c.questions && q == RefreshQuestion(u.records, p);
      FirstOfKept(c.records, u.records, p.canonicalProjectId);
    }
    forall i, j | 0 <= i < j < |u.questions|
      ensures !SamePlace(u.questions[i], u.questions[j])
    {
      assert !SamePlace(c.questions[i], c.questions[j]);
    }
  }

  /** A rewording only replaces the identifier, the cohort and the two texts. */
  ghost predicate Rewords(cohort: Cohort, reword: Question -> Question) {
    forall q :: SameQuestion(q, reword(q), cohort)
  }

  predicate SameQuestion(p: Question, q: Question, cohort: Cohort) {
    && q == p.(id := q.id, cohort := cohort, query := q.query, lexicalQuery := q.lexicalQuery)
    && q.id.QuestionId? && q.id.project == p.canonicalProjectId && q.id.actor == p.actor && q.id.cohort == cohort
  }

  lemma AddedKeepsGrown(o: CorpusOptions, c: ScaleCorpus, cohort: Cohort, reword: Question -> Question)
    requires Grown(o, c) && cohort != ExactName && Rewords(cohort, reword)
    ensures Grown(o, c.(questions := Added(c.questions, cohort, reword)))
  {
    hide RecordsDescend, EvidenceIds, FirstOf;
    var other, exact := (q: Question) => q.cohort != cohort, (q: Question) => q.cohort == ExactName;
    FilterMembers(c.questions, other);
    FilterMembers(c.questions, exact);
    var a, b := Without(c.questions, cohort), Map(Of(c.questions, ExactName), reword);
    FilterDistinctPlaces(c.questions, other);
    FilterDistinctPlaces(c.questions, exact);
    forall i | 0 <= i < |b|
      ensures Answered(c.records, b[i]) && b[i].cohort == cohort
    {
      var q := Of(c.questions, ExactName)[i];
      assert q in Of(c.questions, ExactName) && SameQuestion(q, reword(q), cohort);
    }
    MapDistinctPlaces(Of(c.questions, ExactName), cohort, reword);
    forall i, j | 0 <= i < j < |a + b|
      ensures !SamePlace((a + b)[i], (a + b)[j])
    {
      if j < |a| {
        assert !SamePlace(a[i], a[j]);
      } else if i < |a| {
        assert a[i] in a && b[j - |a|].cohort == cohort;
      } else {
        assert !SamePlace(b[i - |a|], b[j - |a|]);
      }
    }
  }

  lemma {:induction false} FilterDistinctPlaces(qs: seq<Question>, p: Question -> bool)
    requires DistinctPlaces(qs)
    ensures DistinctPlaces(Filter(qs, p))
  {
    hide SamePlace;
    if qs != [] {
      var d := DropLast(qs);
      FilterDistinctPlaces(d, p);
      FilterMembers(d, p);
      var f := Filter(d, p);
      forall i | 0 <= i < |f|
        ensures !SamePlace(f[i], Last(qs))
      {
        assert f[i] in f;
        var k :| 0 <= k < |d| && d[k] == f[i];
        assert !SamePlace(qs[k], qs[|qs| - 1]);
      }
    }
  }

  lemma MapDistinctPlaces(qs: seq<Question>, cohort: Cohort, reword: Question -> Question)
    requires DistinctPlaces(qs) && Rewords(cohort, reword) && forall q :: q in qs ==> q.cohort == ExactName
    ensures DistinctPlaces(Map(qs, reword))
  {
    forall i, j | 0 <= i < j < |qs|
      ensures !SamePlace(reword(qs[i]), reword(qs[j]))
    {
      assert !SamePlace(qs[i], qs[j]) && qs[i] in qs && qs[j] in qs;
      assert SameQuestion(qs[i], reword(qs[i]), cohort) && SameQuestion(qs[j], reword(qs[j]), cohort);
    }
  }

  lemma VocabularyKeepsGrown(o: CorpusOptions, c: ScaleCorpus)
    requires Grown(o, c)
    ensures Grown(o, WithVocabulary(c))
  {
    hide Grown, Wording;
    AddedKeepsGrown(o, c, VocabularyMismatch, VocabularyReword(c.records));
  }

  lemma HumanKeepsGrown(o: CorpusOptions, c: ScaleCorpus, packet: Value)
    requires Grown(o, c) && Keyed(packet)
    ensures Grown(o, WithHuman(c, packet))
  {
    hide Grown, QueryByProject;
    AddedKeepsGrown(o, c, HumanAuthored, HumanReword(QueryByProject(packet)));
  }

  // ---- What the names allow

  lemma NamesHaveWording(o: CorpusOptions, c: ScaleCorpus, project: Id)
    requires Grown(o, c) && FirstOf(c.records, project).Some?
    ensures Wording(c.records, project).Some?
  {
    hide QuestionsAnswered, Continues, VocabularyQuery;
    FirstOfMember(c.records, project);
    var r := FirstOf(c.records, project).value;
    var i :| 0 <= i < |c.records| && c.records[i] == r;
    assert Descends(RecordAt(o, i), c.records[i]);
    NameEndsInWord(ClientName(ClientIndexAt(o, i)), OrdinalAt(o, i), r.canonicalClientName);
  }

  lemma EndsIn(name: string, ending: string)
    ensures EndsWith(name + ending, ending)
  {
  }

  lemma Ending(ordinal: nat)
    ensures " " + ProjectWord(ordinal) == " Onboarding" || " " + ProjectWord(ordinal) == " Renewal"
            || " " + ProjectWord(ordinal) == " Migration" || " " + ProjectWord(ordinal) == " Discovery"
  {
    var n := ordinal % 4;
    assert n == 0 || n == 1 || n == 2 || n == 3;
  }

  lemma NameEndsInWord(name: string, ordinal: nat, clientName: string)
    ensures VocabularyQuery(name + " " + ProjectWord(ordinal), clientName).Some?
    ensures ProjectScenario(name + " " + ProjectWord(ordinal)).Some?
  {
    hide EndsWith, ProjectWord;
    assert name + " " + ProjectWord(ordinal) == name + (" " + ProjectWord(ordinal));
    EndsIn(name, " " + ProjectWord(ordinal));
    Ending(ordinal);
  }

  /** On a generated corpus the vocabulary-mismatch questions can always be added, and every question has its record. */
  lemma VocabularyAlwaysFits(o: CorpusOptions, c: ScaleCorpus)
    requires Grown(o, c)
    ensures VocabularyFits(c) && ProjectsHaveRecords(c)
  {
    hide RecordsDescend, Wording, FirstOf, Descends;
    forall q | q in c.questions
      ensures Wording(c.records, q.canonicalProjectId).Some? && FirstOf(c.records, q.canonicalProjectId).Some?
    {
      assert Answered(c.records, q);
      NamesHaveWording(o, c, q.canonicalProjectId);
    }
  }
}
