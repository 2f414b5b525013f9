/** What the monitor report counts, record by record and question by question, and what its event keys detect. */
module MonitorCounts {
  import opened Prelude
  import opened Corpus
  import opened Updates
  import opened Generator
  import opened Transformers
  import opened Lineage
  import opened Bodies
  import opened Monitor
  import ModelRouter

  // ---- Records

  datatype Stored = Stored(place: nat, version: nat)

  ghost function VersionsOf(rs: seq<Record>): set<Stored> {
    set i: nat, v: nat | i < |rs| && v < |rs[i].versions| :: Stored(i, v)
  }

  lemma {:induction false} VersionsBelow(i: nat, n: nat)
    ensures |set v: nat | v < n :: Stored(i, v)| == n
  {
    var all := set v: nat | v < n :: Stored(i, v);
    if n > 0 {
      VersionsBelow(i, n - 1);
      assert all == (set v: nat | v < n - 1 :: Stored(i, v)) + {Stored(i, n - 1)};
    } else {
      assert all == {};
    }
  }

  lemma {:induction false} VersionsCounted(rs: seq<Record>)
    ensures VersionTotal(rs) == |VersionsOf(rs)|
  {
    if rs != [] {
      var d, n := DropLast(rs), |rs| - 1;
      VersionsCounted(d);
      VersionsBelow(n, |rs[n].versions|);
      var own := set v: nat | v < |rs[n].versions| :: Stored(n, v);
      assert VersionsOf(rs) == VersionsOf(d) + own;
      assert VersionsOf(d) !! own;
    } else {
      assert VersionsOf(rs) == {};
    }
  }

  predicate ChangesStance(r: Record) {
    r.versions != [] && r.versions[0].stance != Last(r.versions).stance
  }

  predicate ChangesBoth(r: Record) {
    ChangesStance(r) && r.versions[0].contentHashKey != Last(r.versions).contentHashKey
  }

  /** What the event keys are made of. */
  function Keys(rs: seq<Record>): set<EventKey>
    requires forall i :: 0 <= i < |rs| ==> rs[i].versions != []
  {
    set r | r in rs :: EventKey(r.sourceSystem, r.visibility, r.external, Last(r.versions).contentHashKey)
  }

  // ---- Questions

  /** The places of the questions whose evidence takes the two stances as given. */
  ghost function QuestionsWith(rs: seq<Record>, qs: seq<Question>, supports: bool, contradicts: bool): set<nat> {
    set i: nat | i < |qs| && HasEvidence(rs, qs[i], Supports) == supports
                 && HasEvidence(rs, qs[i], Contradicts) == contradicts
  }

  lemma OneQuestionMore(rs: seq<Record>, qs: seq<Question>, supports: bool, contradicts: bool)
    requires qs != []
    ensures var q := Last(qs);
            |QuestionsWith(rs, qs, supports, contradicts)| ==
            |QuestionsWith(rs, DropLast(qs), supports, contradicts)|
            + if HasEvidence(rs, q, Supports) == supports && HasEvidence(rs, q, Contradicts) == contradicts then 1
            else 0
  {
    hide HasEvidence;
    var d := DropLast(qs);
    var before, after := QuestionsWith(rs, d, supports, contradicts), QuestionsWith(rs, qs, supports, contradicts);
    if HasEvidence(rs, Last(qs), Supports) == supports && HasEvidence(rs, Last(qs), Contradicts) == contradicts {
      assert after == before + {|d|};
    } else {
      assert after == before;
    }
  }

  lemma {:induction false} StatusesCounted(rs: seq<Record>, qs: seq<Question>)
    ensures var s := StatusesOf(rs, qs);
            && s.supported == |QuestionsWith(rs, qs, true, false)|
            && s.contested == |QuestionsWith(rs, qs, true, true)|
            && s.refuted == |QuestionsWith(rs, qs, false, true)|
            && s.insufficient == |QuestionsWith(rs, qs, false, false)|
  {
    hide HasEvidence, StatusOf, QuestionsWith;
    if qs != [] {
      StatusesCounted(rs, DropLast(qs));
      StatusMeans(rs, Last(qs));
      OneQuestionMore(rs, qs, true, false);
      OneQuestionMore(rs, qs, true, true);
      OneQuestionMore(rs, qs, false, true);
      OneQuestionMore(rs, qs, false, false);
    } else {
      NoQuestions(rs, true, false);
      NoQuestions(rs, true, true);
      NoQuestions(rs, false, true);
      NoQuestions(rs, false, false);
    }
  }

  lemma NoQuestions(rs: seq<Record>, supports: bool, contradicts: bool)
    ensures QuestionsWith(rs, [], supports, contradicts) == {}
  {
  }

  // ---- Leaks

  /** A place in the list of forbidden records of a question. */
  datatype Leak = Leak(question: nat, place: nat)

  /** The record is one that a question about its project shows to the actor. */
  ghost predicate Shows(rs: seq<Record>, q: Question, id: Id) {
    exists r :: r in rs && r.id == id && r.canonicalProjectId == q.canonicalProjectId && !r.deleted
                && CanRead(q.actor, r.visibility)
  }

  ghost function LeaksIn(rs: seq<Record>, q: Question, n: nat): set<Leak> {
    set i: nat | i < |q.forbiddenRecordIds| && Shows(rs, q, q.forbiddenRecordIds[i]) :: Leak(n, i)
  }

  ghost function LeakPlaces(rs: seq<Record>, qs: seq<Question>): set<Leak> {
    set n: nat, i: nat | n < |qs| && i < |qs[n].forbiddenRecordIds| && Shows(rs, qs[n], qs[n].forbiddenRecordIds[i]) ::
      Leak(n, i)
  }

  lemma VisibleIds(rs: seq<Record>, q: Question, id: Id)
    ensures id in Elements(RecordIds(Visible(rs, q))) <==> Shows(rs, q, id)
  {
    var visible := Visible(rs, q);
    FilterMembers(rs, (r: Record) => IsVisible(q, r));
    if id in RecordIds(visible) {
      var i :| 0 <= i < |visible| && RecordIds(visible)[i] == id;
      assert visible[i] in visible;
    }
    if Shows(rs, q, id) {
      var r :| r in rs && r.id == id && IsVisible(q, r);
      var i :| 0 <= i < |visible| && visible[i] == r;
      assert RecordIds(visible)[i] == id;
    }
  }

  lemma LeaksOfOne(rs: seq<Record>, q: Question, n: nat)
    ensures Leaks(rs, q) == |LeaksIn(rs, q, n)|
  {
    var leaks := (id: Id) => id in Elements(RecordIds(Visible(rs, q)));
    forall id
      ensures leaks(id) <==> Shows(rs, q, id)
    {
      VisibleIds(rs, q, id);
    }
    hide Shows, Visible, Elements;
    FilterIsPlaces(q.forbiddenRecordIds, leaks);
    ImageCount(Places(q.forbiddenRecordIds, leaks), i => Leak(n, i), LeaksIn(rs, q, n)) by {
      forall b | b in LeaksIn(rs, q, n)
        ensures b.place in Places(q.forbiddenRecordIds, leaks) && Leak(n, b.place) == b
      {
      }
    }
  }

  lemma {:induction false} LeaksCounted(rs: seq<Record>, qs: seq<Question>)
    ensures LeaksOf(rs, qs) == |LeakPlaces(rs, qs)|
  {
    hide Shows, Leaks;
    if qs != [] {
      var d, n := DropLast(qs), |qs| - 1;
      LeaksCounted(rs, d);
      LeaksOfOne(rs, qs[n], n);
      assert LeakPlaces(rs, qs) == LeakPlaces(rs, d) + LeaksIn(rs, qs[n], n);
      assert LeakPlaces(rs, d) !! LeaksIn(rs, qs[n], n);
    } else {
      assert LeakPlaces(rs, qs) == {};
    }
  }

  // ---- The report

  /** The figures of the report: records, projects, systems, questions, versions, stance changes, duplicates, event
      keys and leaks, the four statuses by what the visible evidence says, and when the benchmark passes. */
  lemma ReportCounts(c: ScaleCorpus)
    requires forall i :: 0 <= i < |c.records| ==> c.records[i].versions != []
    ensures var report, rs, exact := ReportOf(c), c.records, Of(c.questions, ExactName);
            && report.records == |rs| && report.hypothesisEvaluations == |exact|
            && report.projectsEvaluated == |set r | r in rs :: r.canonicalProjectId|
            && report.sourceSystemsCovered == |set r | r in rs :: r.sourceSystem|
            && report.immutableVersions == |VersionsOf(rs)|
            && report.stanceChangesExpected == |Places(rs, ChangesStance)|
            && report.stanceChangesDetected == |Places(rs, ChangesBoth)|
            && report.permissionLeaks == |LeakPlaces(rs, exact)|
            && report.uniqueEventKeys == |Keys(rs)| && report.eventKeyCollisions == |rs| - |Keys(rs)|
            && report.duplicateRecordsSuppressed == |Places(rs, IsDuplicate)|
            && report.epistemicStatuses.supported == |QuestionsWith(rs, exact, true, false)|
            && report.epistemicStatuses.contested == |QuestionsWith(rs, exact, true, true)|
            && report.epistemicStatuses.refuted == |QuestionsWith(rs, exact, false, true)|
            && report.epistemicStatuses.insufficient == |QuestionsWith(rs, exact, false, false)|
            && (report.passed <==>
                && report.sourceSystemsCovered == 5 && report.stanceChangesDetected == report.stanceChangesExpected
                && report.permissionLeaks == 0 && report.eventKeyCollisions == 0
                && report.modelRoute == ModelRouter.NoModel && report.externalTokens == 0)
  {
    hide QuestionsWith, LeakPlaces, VersionsOf, StatusesOf, VersionTotal, LeaksOf, HasEvidence, Filter, Elements,
      Places, SortedSystems, Systems, Characters;
    var rs := c.records;
    VersionsCounted(rs);
    StatusesCounted(rs, Of(c.questions, ExactName));
    SameFilters(rs);
    LeaksCounted(rs, Of(c.questions, ExactName));
    FilterIsPlaces(rs, ChangesStance);
    FilterIsPlaces(rs, ChangesBoth);
    FilterIsPlaces(rs, IsDuplicate);
    KeysAre(rs);
    ProjectsAre(rs);
    SystemsAre(rs);
  }

  lemma SameFilters(rs: seq<Record>)
    requires forall i :: 0 <= i < |rs| ==> rs[i].versions != []
    ensures Filter(rs, StanceChanged) == Filter(rs, ChangesStance)
    ensures Filter(Filter(rs, StanceChanged), ChangeDetected) == Filter(rs, ChangesBoth)
    ensures Filter(rs, (r: Record) => r.duplicateOf.Some?) == Filter(rs, IsDuplicate)
  {
    FilterSame(rs, StanceChanged, ChangesStance);
    FilterTwice(rs);
    FilterSame(rs, (r: Record) => r.duplicateOf.Some?, IsDuplicate);
  }

  lemma {:induction false} FilterTwice(rs: seq<Record>)
    requires forall i :: 0 <= i < |rs| ==> rs[i].versions != []
    ensures Filter(Filter(rs, StanceChanged), ChangeDetected) == Filter(rs, ChangesBoth)
  {
    if rs != [] {
      FilterTwice(DropLast(rs));
      assert Last(rs).versions != [];
    }
  }

  lemma ImageIs<K>(rs: seq<Record>, f: Record -> K, image: set<K>)
    requires forall r :: r in rs ==> f(r) in image
    requires forall k :: k in image ==> exists r :: r in rs && f(r) == k
    ensures Elements(Map(rs, f)) == image
  {
    var ks := Map(rs, f);
    forall k
      ensures k in ks <==> k in image
    {
      if k in ks {
        var i :| 0 <= i < |ks| && ks[i] == k;
        assert rs[i] in rs;
      }
      if k in image {
        var r :| r in rs && f(r) == k;
        var i :| 0 <= i < |rs| && rs[i] == r;
        assert ks[i] == k;
      }
    }
  }

  lemma KeysAre(rs: seq<Record>)
    requires forall i :: 0 <= i < |rs| ==> rs[i].versions != []
    ensures Elements(Map(rs, EventKeyOf)) == Keys(rs)
  {
    hide Elements;
    ImageIs(rs, EventKeyOf, Keys(rs));
  }

  lemma ProjectsAre(rs: seq<Record>)
    ensures Elements(Map(rs, ProjectOf)) == set r | r in rs :: r.canonicalProjectId
  {
    hide Elements;
    ImageIs(rs, ProjectOf, set r | r in rs :: r.canonicalProjectId);
  }

  lemma SystemsAre(rs: seq<Record>)
    ensures Systems(rs) == set r | r in rs :: r.sourceSystem
  {
    hide Elements;
    ImageIs(rs, (r: Record) => r.sourceSystem, set r | r in rs :: r.sourceSystem);
  }

  // ---- Event keys

  /** An update gives a record a new event key if and only if it gives it a new version. */
  lemma KeysFollowVersions(o: CorpusOptions, c: ScaleCorpus, n: int, every: int, i: nat)
    requires Grown(o, c) && ValidUpdate(c, n, every) && i < |c.records|
    ensures var u := UpdatedCorpus(c, n, every);
            && |u.records| == |c.records|
            && (EventKeyOf(u.records[i]) == EventKeyOf(c.records[i]) <==>
                u.records[i].versions == c.records[i].versions)
  {
    hide Grown, Touched, BodiesDiffer, UpdatedCorpus, DistinctIds, ValidUpdate;
    GrownIds(o, c);
    UpdateTouches(c, n, every);
    UpdateKeepsGrown(o, c, n, every);
    VersionsDiffer(o, UpdatedCorpus(c, n, every), i);
    HasVersion(o, c, i);
    KeyChanges(c.records[i], UpdatedCorpus(c, n, every).records[i]);
  }

  lemma HasVersion(o: CorpusOptions, c: ScaleCorpus, i: nat)
    requires Grown(o, c) && i < |c.records|
    ensures c.records[i].versions != []
  {
    hide RecordAt, QuestionsAnswered, Continues;
    assert Descends(RecordAt(o, i), c.records[i]);
  }

  lemma KeyChanges(r: Record, s: Record)
    requires Touched(r, s) && BodiesDiffer(s.versions) && r.versions != []
    ensures EventKeyOf(r) == EventKeyOf(s) <==> r.versions == s.versions
  {
    hide NextVersion;
    if s == r.(versions := r.versions + [NextVersion(r)]) {
      var k := |r.versions|;
      assert s.versions[k - 1].body != s.versions[k].body;
      assert s.versions[k - 1] == Last(r.versions) && s.versions[k] == Last(s.versions);
    }
  }
}
