/** `evaluateHypothesisMonitorBenchmark` and why it passes on every generated corpus. */
module Monitor {
  import opened Prelude
  import opened Corpus
  import opened Updates
  import opened Generator
  import opened Transformers
  import opened Lineage
  import opened Bodies
  import opened CorpusRuns
  import M = ModelRouter

  datatype Status = Insufficient | Supported | Contested | Refuted

  datatype Statuses = Statuses(insufficient: nat, supported: nat, contested: nat, refuted: nat)

  datatype EventKey = EventKey(system: SourceSystem, visibility: Visibility, external: External, hash: Id)

  datatype Report = Report(
    records: nat, projectsEvaluated: nat, hypothesisEvaluations: nat, sourceSystemsCovered: nat,
    sourceSystems: seq<SourceSystem>, immutableVersions: nat,
    stanceChangesExpected: nat, stanceChangesDetected: nat, duplicateRecordsSuppressed: nat,
    uniqueEventKeys: nat, eventKeyCollisions: int, permissionLeaks: nat, epistemicStatuses: Statuses,
    modelRoute: M.Route, externalTokens: int, estimatedCostMicros: int, passed: bool)

  // ---- One question

  predicate IsVisible(q: Question, r: Record) {
    r.canonicalProjectId == q.canonicalProjectId && !r.deleted && CanRead(q.actor, r.visibility)
  }

  function Visible(rs: seq<Record>, q: Question): seq<Record> {
    Filter(rs, (r: Record) => IsVisible(q, r))
  }

  function Leaks(rs: seq<Record>, q: Question): nat {
    |Filter(q.forbiddenRecordIds, (id: Id) => id in Elements(RecordIds(Visible(rs, q))))|
  }

  function LatestWith(rs: seq<Record>, stance: Stance): nat {
    |Filter(rs, (r: Record) => Latest(r).stance == stance)|
  }

  function StatusOf(rs: seq<Record>, q: Question): Status {
    var evidence := Filter(Visible(rs, q), (r: Record) => r.duplicateOf.None?);
    var supporting, contradicting := LatestWith(evidence, Supports), LatestWith(evidence, Contradicts);
    if supporting == 0 && contradicting > 0 then Refuted
    else if supporting > 0 && contradicting > 0 then Contested
    else if supporting > 0 then Supported
    else Insufficient
  }

  function Counted(s: Statuses, status: Status): Statuses {
    match status
    case Insufficient => s.(insufficient := s.insufficient + 1)
    case Supported => s.(supported := s.supported + 1)
    case Contested => s.(contested := s.contested + 1)
    case Refuted => s.(refuted := s.refuted + 1)
  }

  // ---- All questions and records

  function LeaksOf(rs: seq<Record>, qs: seq<Question>): nat {
    if qs == [] then 0 else LeaksOf(rs, DropLast(qs)) + Leaks(rs, Last(qs))
  }

  function StatusesOf(rs: seq<Record>, qs: seq<Question>): Statuses {
    if qs == [] then Statuses(0, 0, 0, 0) else Counted(StatusesOf(rs, DropLast(qs)), StatusOf(rs, Last(qs)))
  }

  predicate StanceChanged(r: Record) { First(r).stance != Latest(r).stance }
  predicate ChangeDetected(r: Record) { First(r).contentHashKey != Latest(r).contentHashKey
                                        && First(r).stance != Latest(r).stance }

  function EventKeyOf(r: Record): EventKey {
    EventKey(r.sourceSystem, r.visibility, r.external, Latest(r).contentHashKey)
  }

  function Systems(rs: seq<Record>): set<SourceSystem> {
    Elements(Map(rs, (r: Record) => r.sourceSystem))
  }

  /** The names of the source systems in alphabetical order. */
  const SORTED_SYSTEMS: seq<SourceSystem> := [Crm, Documents, Meetings, Messages, Research]

  /** `[...sourceSystems].sort()` */
  function SortedSystems(rs: seq<Record>): seq<SourceSystem> {
    Filter(SORTED_SYSTEMS, (s: SourceSystem) => s in Systems(rs))
  }

  function Characters(rs: seq<Record>): nat {
    if rs == [] then 0 else Characters(DropLast(rs)) + |Latest(Last(rs)).body|
  }

  function VersionTotal(rs: seq<Record>): nat {
    if rs == [] then 0 else VersionTotal(DropLast(rs)) + |Last(rs).versions|
  }

  const BENCHMARK_POLICY := M.Policy(M.DeterministicOnly, true, [], Some(0), Some(0), None, None, None, None, None)

  function RouteFor(rs: seq<Record>): M.Decision {
    M.ChooseModelRoute(BENCHMARK_POLICY, M.Task(true, Characters(rs), 0.0, 1.0, None, None, None))
  }

  function ReportOf(c: ScaleCorpus): Report {
    var rs, exact := c.records, Of(c.questions, ExactName);
    var expected := Filter(rs, StanceChanged);
    var detected := Filter(expected, ChangeDetected);
    var keys := Map(rs, EventKeyOf);
    var route := RouteFor(rs);
    Report(|rs|, |Elements(Map(rs, ProjectOf))|, |exact|, |Systems(rs)|, SortedSystems(rs), VersionTotal(rs),
           |expected|, |detected|,
           |Filter(rs, (r: Record) => r.duplicateOf.Some?)|, |Elements(keys)|, |keys| - |Elements(keys)|,
           LeaksOf(rs, exact), StatusesOf(rs, exact), route.route, route.estimatedInputTokens,
           route.estimatedCostMicros,
           |Systems(rs)| == 5 && |detected| == |expected| && LeaksOf(rs, exact) == 0 && |keys| == |Elements(keys)|
           && route.route == M.NoModel && route.estimatedInputTokens == 0)
  }

  /** `evaluateHypothesisMonitorBenchmark` */
  method EvaluateMonitorBenchmark(c: ScaleCorpus) returns (report: Report)
    requires forall r :: r in c.records ==> r.versions != []
    ensures report == ReportOf(c)
    ensures report.hypothesisEvaluations == |Of(c.questions, ExactName)|
    ensures var s := report.epistemicStatuses;
            s.insufficient + s.supported + s.contested + s.refuted == report.hypothesisEvaluations
  {
    hide Leaks, StatusOf, Systems, RouteFor, VersionTotal, StanceChanged, ChangeDetected, EventKeyOf, Elements, Filter;
    var rs := c.records;
    var stanceChanged := Filter(rs, StanceChanged);
    var detected := Filter(stanceChanged, ChangeDetected);
    var permissionLeaks, evaluations, statuses := 0, 0, Statuses(0, 0, 0, 0);
    var exact := Of(c.questions, ExactName);
    for n := 0 to |exact|
      invariant permissionLeaks == LeaksOf(rs, exact[..n]) && statuses == StatusesOf(rs, exact[..n]) && evaluations == n
      invariant statuses.insufficient + statuses.supported + statuses.contested + statuses.refuted == n
    {
      assert DropLast(exact[..n + 1]) == exact[..n] && Last(exact[..n + 1]) == exact[n];
      permissionLeaks := permissionLeaks + Leaks(rs, exact[n]);
      statuses := Counted(statuses, StatusOf(rs, exact[n]));
      evaluations := evaluations + 1;
    }
    assert exact[..|exact|] == exact;
    var keys := Map(rs, EventKeyOf);
    var unique := Elements(keys);
    var route := RouteFor(rs);
    report := Report(|rs|, |Elements(Map(rs, ProjectOf))|, evaluations, |Systems(rs)|, SortedSystems(rs),
                     VersionTotal(rs), |stanceChanged|, |detected|,
                     |Filter(rs, (r: Record) => r.duplicateOf.Some?)|, |unique|, |keys| - |unique|,
                     permissionLeaks, statuses, route.route, route.estimatedInputTokens, route.estimatedCostMicros,
                     |Systems(rs)| == 5 && |detected| == |stanceChanged| && permissionLeaks == 0 && |keys| == |unique|
                     && route.route == M.NoModel && route.estimatedInputTokens == 0);
  }

  // ---- Why it passes

  /** Visible, original evidence whose latest version takes the stance. */
  ghost predicate HasEvidence(rs: seq<Record>, q: Question, stance: Stance) {
    exists r :: r in rs && r.canonicalProjectId == q.canonicalProjectId && !r.deleted
                && CanRead(q.actor, r.visibility) && r.duplicateOf.None? && Latest(r).stance == stance
  }

  lemma EvidenceCounted(rs: seq<Record>, q: Question, stance: Stance)
    ensures LatestWith(Filter(Visible(rs, q), (r: Record) => r.duplicateOf.None?), stance) > 0 <==>
            HasEvidence(rs, q, stance)
  {
    var evidence := Filter(Visible(rs, q), (r: Record) => r.duplicateOf.None?);
    FilterMembers(rs, (r: Record) => IsVisible(q, r));
    FilterMembers(Visible(rs, q), (r: Record) => r.duplicateOf.None?);
    FilterMembers(evidence, (r: Record) => Latest(r).stance == stance);
    var found := Filter(evidence, (r: Record) => Latest(r).stance == stance);
    if found != [] {
      assert found[0] in found;
    }
  }

  /** A question's status says which stances its visible evidence takes. */
  lemma StatusMeans(rs: seq<Record>, q: Question)
    ensures StatusOf(rs, q) ==
            if HasEvidence(rs, q, Supports) then (if HasEvidence(rs, q, Contradicts) then Contested else Supported)
            else if HasEvidence(rs, q, Contradicts) then Refuted else Insufficient
  {
    hide LatestWith, Visible, HasEvidence;
    EvidenceCounted(rs, q, Supports);
    EvidenceCounted(rs, q, Contradicts);
  }

  lemma ForbiddenIsUnreadable(c: ScaleCorpus, q: Question, r: Record)
    requires DistinctIds(c.records) && Answered(c.records, q) && r in c.records
    ensures r.id in q.forbiddenRecordIds ==> !CanRead(q.actor, r.visibility)
  {
    hide EvidenceIds, CanRead, FirstOf;
    EvidenceIdsMembers(c.records, q.canonicalProjectId, q.actor, false);
    if r.id in q.forbiddenRecordIds {
      var s :| s in c.records && s.id == r.id && !CanRead(q.actor, s.visibility);
      OneRecord(c.records, r, s);
    }
  }

  lemma NoLeaks(c: ScaleCorpus, q: Question)
    requires DistinctIds(c.records) && Answered(c.records, q)
    ensures Leaks(c.records, q) == 0
  {
    hide EvidenceIds, CanRead, FirstOf;
    var visible := Visible(c.records, q);
    FilterMembers(c.records, (r: Record) => IsVisible(q, r));
    forall i | 0 <= i < |visible|
      ensures visible[i].id !in q.forbiddenRecordIds
    {
      assert visible[i] in visible;
      ForbiddenIsUnreadable(c, q, visible[i]);
    }
    assert forall id :: id in Elements(RecordIds(visible)) ==> id !in q.forbiddenRecordIds;
    FilterNone(q.forbiddenRecordIds, (id: Id) => id in Elements(RecordIds(visible)));
  }

  lemma {:induction false} NoLeaksAtAll(c: ScaleCorpus, qs: seq<Question>)
    requires DistinctIds(c.records) && forall q :: q in qs ==> Answered(c.records, q)
    ensures LeaksOf(c.records, qs) == 0
  {
    hide Answered, Leaks;
    if qs != [] {
      NoLeaksAtAll(c, DropLast(qs));
      assert Last(qs) in qs;
      NoLeaks(c, Last(qs));
    }
  }

  lemma EveryChangeDetected(o: CorpusOptions, c: ScaleCorpus)
    requires Grown(o, c)
    ensures Filter(Filter(c.records, StanceChanged), ChangeDetected) == Filter(c.records, StanceChanged)
  {
    hide Grown;
    FilterMembers(c.records, StanceChanged);
    forall r | r in Filter(c.records, StanceChanged)
      ensures ChangeDetected(r)
    {
      var i :| 0 <= i < |c.records| && c.records[i] == r;
      VersionsDiffer(o, c, i);
      assert r.versions[0].contentHashKey != r.versions[|r.versions| - 1].contentHashKey;
    }
    FilterAll(Filter(c.records, StanceChanged), ChangeDetected);
  }

  lemma KeysAreUnique(o: CorpusOptions, c: ScaleCorpus)
    requires Grown(o, c)
    ensures |Elements(Map(c.records, EventKeyOf))| == |c.records|
  {
    hide RecordAt, QuestionsAnswered, Continues, Elements;
    var keys := Map(c.records, EventKeyOf);
    forall i | 0 <= i < |keys|
      ensures keys[i].external.index == i
    {
      assert Descends(RecordAt(o, i), c.records[i]);
      ExternalAt(o, i);
    }
    DistinctCount(keys);
  }

  /** Early in the first cycle when there are five projects, and otherwise in one of the first project's first five
      cycles. */
  lemma IndexFor(p: nat, k: nat) returns (i: nat)
    requires p >= 2 && k < 5
    ensures i < 100 && (i % p + i / p) % 5 == k
  {
    if p >= 5 {
      i := k;
      DivideExactly(k, p, 0, k);
    } else {
      i := k * p;
      assert p == 2 || p == 3 || p == 4;
    }
  }

  lemma SystemOccurs(o: CorpusOptions, c: ScaleCorpus, k: nat)
    requires Grown(o, c) && k < 5
    ensures SOURCE_SYSTEMS[k] in Systems(c.records)
  {
    hide RecordAt, QuestionsAnswered, Continues, Elements, ProjectCount;
    var i := IndexFor(ProjectCount(o), k);
    assert Descends(RecordAt(o, i), c.records[i]);
    ExternalAt(o, i);
    var systems := Map(c.records, (r: Record) => r.sourceSystem);
    assert systems[i] == SOURCE_SYSTEMS[k];
    ElementIn(systems, i);
  }

  lemma ElementIn<T>(s: seq<T>, i: nat)
    requires i < |s|
    ensures s[i] in Elements(s)
  {
  }

  lemma AllSystemsOccur(o: CorpusOptions, c: ScaleCorpus)
    requires Grown(o, c)
    ensures |Systems(c.records)| == 5
  {
    hide Grown, Systems;
    SystemOccurs(o, c, 0);
    SystemOccurs(o, c, 1);
    SystemOccurs(o, c, 2);
    SystemOccurs(o, c, 3);
    SystemOccurs(o, c, 4);
    assert SOURCE_SYSTEMS[0] == Research && SOURCE_SYSTEMS[1] == Meetings && SOURCE_SYSTEMS[2] == Crm
           && SOURCE_SYSTEMS[3] == Documents && SOURCE_SYSTEMS[4] == Messages;
    AllFive(Systems(c.records));
  }

  lemma AllFive(s: set<SourceSystem>)
    requires Research in s && Meetings in s && Crm in s && Documents in s && Messages in s
    ensures |s| == 5
  {
    var five := {Research, Meetings, Crm, Documents, Messages};
    forall x: SourceSystem
      ensures x in s && x in five
    {
      assert x.Research? || x.Meetings? || x.Crm? || x.Documents? || x.Messages?;
    }
    assert s == five;
  }

  lemma AllSystemsSorted(o: CorpusOptions, c: ScaleCorpus)
    requires Grown(o, c)
    ensures SortedSystems(c.records) == SORTED_SYSTEMS
  {
    hide Grown, Systems;
    forall s: SourceSystem
      ensures s in Systems(c.records)
    {
      var k: nat := match s case Research => 0 case Meetings => 1 case Crm => 2 case Documents => 3 case Messages => 4;
      SystemOccurs(o, c, k);
    }
    FilterAll(SORTED_SYSTEMS, (s: SourceSystem) => s in Systems(c.records));
  }

  /** The contract of the monitor benchmark, on every corpus that any sequence of accepted edits makes of a generated
      one. */
  lemma BenchmarkAlwaysPasses(o: CorpusOptions, c: ScaleCorpus)
    requires Grown(o, c)
    ensures var report := ReportOf(c);
            && report.passed && report.permissionLeaks == 0 && report.eventKeyCollisions == 0
            && report.stanceChangesDetected == report.stanceChangesExpected && report.sourceSystemsCovered == 5
            && report.modelRoute == M.NoModel && report.externalTokens == 0 && report.estimatedCostMicros == 0
            && report.sourceSystems == SORTED_SYSTEMS
  {
    hide Grown, LeaksOf, StatusesOf, Systems, SortedSystems, VersionTotal, StanceChanged, ChangeDetected, EventKeyOf,
      Elements,
      DistinctIds, Answered, Characters;
    GrownIds(o, c);
    AllSystemsOccur(o, c);
    AllSystemsSorted(o, c);
    KeysAreUnique(o, c);
    EveryChangeDetected(o, c);
    ExactAreAnswered(o, c);
    NoLeaksAtAll(c, Of(c.questions, ExactName));
  }

  lemma ExactAreAnswered(o: CorpusOptions, c: ScaleCorpus)
    requires Grown(o, c)
    ensures forall q :: q in Of(c.questions, ExactName) ==> Answered(c.records, q)
  {
    hide Answered, RecordsDescend;
    FilterMembers(c.questions, (q: Question) => q.cohort == ExactName);
  }
}
