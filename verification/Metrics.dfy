/** The accumulators of the retrieval evaluations, which must reconcile by cohort. */
module Metrics {
  import opened Prelude
  import opened Corpus
  import opened Ranking

  // ---- One result list against one question

  datatype Totals = Totals(
    expectedReturned: nat, totalReturned: nat, totalExpected: nat, forbiddenReturned: nat, reciprocalRankTotal: real)

  const EMPTY := Totals(0, 0, 0, 0, 0.0)

  function CountIn(returned: seq<Id>, wanted: set<Id>): nat {
    |Filter(returned, (id: Id) => id in wanted)|
  }

  /** `findIndex`: the first position of a wanted id, if any. */
  function FirstIndex(returned: seq<Id>, wanted: set<Id>): Option<nat> {
    if returned == [] then None
    else match FirstIndex(DropLast(returned), wanted)
         case Some(i) => Some(i)
         case None => if Last(returned) in wanted then Some(|returned| - 1) else None
  }

  function ReciprocalRank(returned: seq<Id>, wanted: set<Id>): real {
    match FirstIndex(returned, wanted)
    case None => 0.0
    case Some(i) => 1.0 / (i + 1) as real
  }

  /** What one result list adds. */
  function Scored(returned: seq<Id>, q: Question): Totals {
    var expected, forbidden := Elements(q.expectedRecordIds), Elements(q.forbiddenRecordIds);
    Totals(CountIn(returned, expected), |returned|, |expected|, CountIn(returned, forbidden),
           ReciprocalRank(returned, expected))
  }

  function Plus(a: Totals, b: Totals): Totals {
    Totals(a.expectedReturned + b.expectedReturned, a.totalReturned + b.totalReturned,
           a.totalExpected + b.totalExpected,
           a.forbiddenReturned + b.forbiddenReturned, a.reciprocalRankTotal + b.reciprocalRankTotal)
  }

  /** The accumulator object of `addResult`. */
  class Accumulator {
    var expectedReturned: nat
    var totalReturned: nat
    var totalExpected: nat
    var forbiddenReturned: nat
    var reciprocalRankTotal: real

    function Value(): Totals
      reads this
    {
      Totals(expectedReturned, totalReturned, totalExpected, forbiddenReturned, reciprocalRankTotal)
    }

    constructor ()
      ensures Value() == EMPTY
    {
      expectedReturned, totalReturned, totalExpected, forbiddenReturned, reciprocalRankTotal := 0, 0, 0, 0, 0.0;
    }

    /** `addResult` */
    method AddResult(returned: seq<Id>, q: Question)
      modifies this
      ensures Value() == Plus(old(Value()), Scored(returned, q))
    {
      var expected, forbidden := Elements(q.expectedRecordIds), Elements(q.forbiddenRecordIds);
      expectedReturned := expectedReturned + |Filter(returned, (id: Id) => id in expected)|;
      forbiddenReturned := forbiddenReturned + |Filter(returned, (id: Id) => id in forbidden)|;
      totalReturned := totalReturned + |returned|;
      totalExpected := totalExpected + |expected|;
      var firstRelevant := FirstIndex(returned, expected);
      reciprocalRankTotal := reciprocalRankTotal + if firstRelevant.None? then 0.0
      else 1.0 / (firstRelevant.value + 1) as real;
    }
  }

  // ---- One channel, overall and by cohort

  datatype Tally = Tally(questions: nat, totals: Totals)

  const NO_TALLY := Tally(0, EMPTY)

  function Together(a: Tally, b: Tally): Tally {
    Tally(a.questions + b.questions, Plus(a.totals, b.totals))
  }

  /** The tally after one more question. */
  function Counted(t: Tally, returned: seq<Id>, q: Question): Tally {
    Together(t, Tally(1, Scored(returned, q)))
  }

  function CohortOf(cohorts: map<Cohort, Tally>, k: Cohort): Tally {
    if k in cohorts then cohorts[k] else NO_TALLY
  }

  /** The cohorts' figures add up to the overall ones, field by field. */
  predicate Reconciled(overall: Tally, cohorts: map<Cohort, Tally>) {
    overall == Together(Together(CohortOf(cohorts, ExactName), CohortOf(cohorts, VocabularyMismatch)),
                        CohortOf(cohorts, HumanAuthored))
  }

  lemma ReconciledAfter(overall: Tally, cohorts: map<Cohort, Tally>, k: Cohort, more: Tally)
    requires Reconciled(overall, cohorts)
    ensures Reconciled(Together(overall, more), cohorts[k := Together(CohortOf(cohorts, k), more)])
  {
    hide Together;
    var a, b, c := CohortOf(cohorts, ExactName), CohortOf(cohorts, VocabularyMismatch),
                   CohortOf(cohorts, HumanAuthored);
    TogetherAnywhere(a, b, c, more);
    match k case ExactName => case VocabularyMismatch => case HumanAuthored =>
  }

  lemma TogetherAnywhere(a: Tally, b: Tally, c: Tally, m: Tally)
    ensures Together(Together(Together(a, b), c), m) == Together(Together(Together(a, m), b), c)
    ensures Together(Together(Together(a, b), c), m) == Together(Together(a, Together(b, m)), c)
    ensures Together(Together(Together(a, b), c), m) == Together(Together(a, b), Together(c, m))
  {
  }

  function TotalOf(qs: seq<Question>, returnedOf: Question -> seq<Id>): Tally {
    if qs == [] then NO_TALLY else Counted(TotalOf(DropLast(qs), returnedOf), returnedOf(Last(qs)), Last(qs))
  }

  function InCohort(qs: seq<Question>, k: Cohort): seq<Question> {
    Filter(qs, (q: Question) => q.cohort == k)
  }

  lemma NextInCohort(qs: seq<Question>, q: Question, k: Cohort, returnedOf: Question -> seq<Id>)
    ensures TotalOf(InCohort(qs + [q], k), returnedOf)
         == if q.cohort == k then Counted(TotalOf(InCohort(qs, k), returnedOf), returnedOf(q), q)
            else TotalOf(InCohort(qs, k), returnedOf)
  {
    hide Counted;
    assert DropLast(qs + [q]) == qs;
    var base := InCohort(qs, k);
    assert DropLast(base + [q]) == base;
  }

  /** The state of one channel after the questions `done`: overall and cohort figures are those of the questions, and
      agree. */
  ghost predicate Ledger(overall: Tally, cohorts: map<Cohort, Tally>, done: seq<Question>,
                         returnedOf: Question -> seq<Id>) {
    && overall == TotalOf(done, returnedOf) && Reconciled(overall, cohorts)
    && forall k :: CohortOf(cohorts, k) == TotalOf(InCohort(done, k), returnedOf)
  }

  lemma LedgerAfter(overall: Tally, cohorts: map<Cohort, Tally>, done: seq<Question>, q: Question,
                    returnedOf: Question -> seq<Id>)
    requires Ledger(overall, cohorts, done, returnedOf)
    ensures Ledger(Counted(overall, returnedOf(q), q),
                   cohorts[q.cohort := Counted(CohortOf(cohorts, q.cohort), returnedOf(q), q)], done + [q], returnedOf)
  {
    hide Reconciled, Together, Scored, InCohort;
    ReconciledAfter(overall, cohorts, q.cohort, Tally(1, Scored(returnedOf(q), q)));
    hide Counted;
    assert DropLast(done + [q]) == done;
    forall k
      ensures TotalOf(InCohort(done + [q], k), returnedOf)
           == if q.cohort == k then Counted(TotalOf(InCohort(done, k), returnedOf), returnedOf(q), q)
              else TotalOf(InCohort(done, k), returnedOf)
    {
      NextInCohort(done, q, k, returnedOf);
    }
  }

  lemma LedgerEmpty(returnedOf: Question -> seq<Id>)
    ensures Ledger(NO_TALLY, map[], [], returnedOf)
  {
    hide Together;
    TogetherNothing(NO_TALLY, NO_TALLY);
  }

  lemma TogetherNothing(a: Tally, none: Tally)
    requires none == NO_TALLY
    ensures Together(a, none) == a
  {
  }

  // ---- The order of the questions

  function OfActor(qs: seq<Question>, actor: Actor): seq<Question> {
    Filter(qs, (q: Question) => q.actor == actor)
  }

  /** The order in which questions are evaluated: actor by actor. */
  function ByActor(qs: seq<Question>): seq<Question> {
    OfActor(qs, Alex) + OfActor(qs, Jamie) + OfActor(qs, Morgan)
  }

  function ActorsDone(qs: seq<Question>, n: nat): seq<Question>
    requires n <= 3
  {
    if n == 0 then [] else ActorsDone(qs, n - 1) + OfActor(qs, ACTORS[n - 1])
  }

  lemma AllActors(qs: seq<Question>)
    ensures ActorsDone(qs, 3) == ByActor(qs)
  {
    hide OfActor;
    assert ActorsDone(qs, 1) == OfActor(qs, Alex);
    assert ActorsDone(qs, 2) == OfActor(qs, Alex) + OfActor(qs, Jamie);
  }

  /** Every question is evaluated exactly once. */
  lemma {:induction false} EveryQuestionOnce(qs: seq<Question>)
    ensures multiset(ByActor(qs)) == multiset(qs)
    ensures |ByActor(qs)| == |qs|
  {
    if qs != [] {
      EveryQuestionOnce(DropLast(qs));
      assert qs == DropLast(qs) + [Last(qs)];
    }
    SameSize(ByActor(qs), qs);
  }

  // ---- The lexical evaluator

  /** The evaluation loop of one actor. */
  method EvaluateLexicalActor(qs: seq<Question>, returnedOf: Question -> seq<Id>, overall0: Tally,
                              cohorts0: map<Cohort, Tally>,
                              ghost done: seq<Question>)
    returns (overall: Tally, cohorts: map<Cohort, Tally>)
    requires Ledger(overall0, cohorts0, done, returnedOf)
    ensures Ledger(overall, cohorts, done + qs, returnedOf)
  {
    hide Ledger, Counted;
    overall, cohorts := overall0, cohorts0;
    assert done + qs[..0] == done;
    for i := 0 to |qs|
      invariant Ledger(overall, cohorts, done + qs[..i], returnedOf)
    {
      var q := qs[i];
      LedgerAfter(overall, cohorts, done + qs[..i], q, returnedOf);
      assert done + qs[..i] + [q] == done + qs[..i + 1];
      var returned := returnedOf(q);
      overall := Counted(overall, returned, q);
      cohorts := cohorts[q.cohort := Counted(CohortOf(cohorts, q.cohort), returned, q)];
    }
    assert qs[..|qs|] == qs;
  }

  /** The loop of `evaluateScaleCorpus` over actors and questions: every question is counted once, and the cohorts'
      figures add up to the overall ones. */
  method EvaluateLexical(c: ScaleCorpus, returnedOf: Question -> seq<Id>)
    returns (overall: Tally, cohorts: map<Cohort, Tally>)
    ensures Ledger(overall, cohorts, ByActor(c.questions), returnedOf)
    ensures overall.questions == |c.questions|
  {
    hide Ledger, OfActor;
    LedgerEmpty(returnedOf);
    overall, cohorts := NO_TALLY, map[];
    ghost var done := [];
    for i := 0 to 3
      invariant done == ActorsDone(c.questions, i) && Ledger(overall, cohorts, done, returnedOf)
    {
      overall, cohorts := EvaluateLexicalActor(OfActor(c.questions, ACTORS[i]), returnedOf, overall, cohorts, done);
      done := done + OfActor(c.questions, ACTORS[i]);
    }
    AllActors(c.questions);
    EveryQuestionOnce(c.questions);
    LedgerCounts(overall, cohorts, done, returnedOf);
  }

  lemma {:induction false} TotalCounts(qs: seq<Question>, returnedOf: Question -> seq<Id>)
    ensures TotalOf(qs, returnedOf).questions == |qs|
  {
    if qs != [] {
      TotalCounts(DropLast(qs), returnedOf);
    }
  }

  lemma LedgerCounts(overall: Tally, cohorts: map<Cohort, Tally>, done: seq<Question>, returnedOf: Question -> seq<Id>)
    requires Ledger(overall, cohorts, done, returnedOf)
    ensures overall.questions == |done|
    ensures forall k :: CohortOf(cohorts, k).questions == |InCohort(done, k)|
  {
    TotalCounts(done, returnedOf);
    forall k {
      TotalCounts(InCohort(done, k), returnedOf);
    }
  }

  // ---- The evaluator of three channels

  datatype Channels = Channels(questions: nat, lexical: Totals, semantic: Totals, hybrid: Totals)

  /** The result lists of one question. */
  datatype Results = Results(lexical: seq<Id>, semantic: seq<Id>, hybrid: seq<Id>)

  datatype Channel = LexicalChannel | SemanticChannel | HybridChannel

  function ListOf(results: Results, channel: Channel): seq<Id> {
    match channel
    case LexicalChannel => results.lexical
    case SemanticChannel => results.semantic
    case HybridChannel => results.hybrid
  }

  function ReturnedBy(resultsOf: Question -> Results, channel: Channel): Question -> seq<Id> {
    (q: Question) => ListOf(resultsOf(q), channel)
  }

  function TallyOf(ch: Channels, channel: Channel): Tally {
    match channel
    case LexicalChannel => Tally(ch.questions, ch.lexical)
    case SemanticChannel => Tally(ch.questions, ch.semantic)
    case HybridChannel => Tally(ch.questions, ch.hybrid)
  }

  function CohortTallies(cohorts: map<Cohort, Channels>, channel: Channel): map<Cohort, Tally> {
    map k | k in cohorts :: TallyOf(cohorts[k], channel)
  }

  const NO_CHANNELS := Channels(0, EMPTY, EMPTY, EMPTY)

  /** The cohort entry after one more question. */
  function CountedAll(ch: Channels, results: Results, q: Question): Channels {
    Channels(ch.questions + 1, Plus(ch.lexical, Scored(results.lexical, q)),
             Plus(ch.semantic, Scored(results.semantic, q)),
             Plus(ch.hybrid, Scored(results.hybrid, q)))
  }

  /** Every channel's ledger is in order. */
  ghost predicate Ledgers(overall: Channels, cohorts: map<Cohort, Channels>, done: seq<Question>,
                          resultsOf: Question -> Results) {
    forall channel :: Ledger(TallyOf(overall, channel), CohortTallies(cohorts, channel), done,
                             ReturnedBy(resultsOf, channel))
  }

  lemma LedgersAfter(overall: Channels, cohorts: map<Cohort, Channels>, done: seq<Question>, q: Question,
                     resultsOf: Question -> Results)
    requires Ledgers(overall, cohorts, done, resultsOf)
    ensures var entry := if q.cohort in cohorts then cohorts[q.cohort] else NO_CHANNELS;
            Ledgers(CountedAll(overall, resultsOf(q), q), cohorts[q.cohort := CountedAll(entry, resultsOf(q), q)],
                    done + [q], resultsOf)
  {
    hide Ledger, Scored, Plus;
    var entry := if q.cohort in cohorts then cohorts[q.cohort] else NO_CHANNELS;
    var after, more := CountedAll(overall, resultsOf(q), q), CountedAll(entry, resultsOf(q), q);
    forall channel
      ensures Ledger(TallyOf(after, channel), CohortTallies(cohorts[q.cohort := more], channel), done + [q],
                     ReturnedBy(resultsOf, channel))
    {
      LedgerAfter(TallyOf(overall, channel), CohortTallies(cohorts, channel), done, q, ReturnedBy(resultsOf, channel));
      CountedChannel(overall, resultsOf(q), q, channel);
      CountedChannel(entry, resultsOf(q), q, channel);
      assert CohortTallies(cohorts[q.cohort := more], channel) ==
             CohortTallies(cohorts, channel)[q.cohort := TallyOf(more, channel)];
    }
  }

  lemma CountedChannel(ch: Channels, results: Results, q: Question, channel: Channel)
    ensures TallyOf(CountedAll(ch, results, q), channel) == Counted(TallyOf(ch, channel), ListOf(results, channel), q)
  {
    match channel case LexicalChannel => case SemanticChannel => case HybridChannel =>
  }

  lemma LedgersEmpty(resultsOf: Question -> Results)
    ensures Ledgers(NO_CHANNELS, map[], [], resultsOf)
  {
    hide Ledger;
    forall channel
      ensures Ledger(TallyOf(NO_CHANNELS, channel), CohortTallies(map[], channel), [], ReturnedBy(resultsOf, channel))
    {
      LedgerEmpty(ReturnedBy(resultsOf, channel));
      assert CohortTallies(map[], channel) == map[];
    }
  }

  /** The three overall accumulators, read together. */
  function Overall(questions: nat, lexical: Accumulator, semantic: Accumulator, hybrid: Accumulator): Channels
    reads lexical, semantic, hybrid
  {
    Channels(questions, lexical.Value(), semantic.Value(), hybrid.Value())
  }

  /** The evaluation loop of one actor. */
  method EvaluateActor(qs: seq<Question>, resultsOf: Question -> Results, lexical: Accumulator, semantic: Accumulator,
                       hybrid: Accumulator, cohorts0: map<Cohort, Channels>, ghost done: seq<Question>)
    returns (cohorts: map<Cohort, Channels>)
    requires lexical != semantic && lexical != hybrid && semantic != hybrid
    requires Ledgers(Overall(|done|, lexical, semantic, hybrid), cohorts0, done, resultsOf)
    modifies lexical, semantic, hybrid
    ensures Ledgers(Overall(|done + qs|, lexical, semantic, hybrid), cohorts, done + qs, resultsOf)
  {
    hide Ledgers, Scored, Plus, Accumulator.Value;
    cohorts := cohorts0;
    assert done + qs[..0] == done;
    for i := 0 to |qs|
      invariant Ledgers(Overall(|done| + i, lexical, semantic, hybrid), cohorts, done + qs[..i], resultsOf)
    {
      var q := qs[i];
      var results := resultsOf(q);
      LedgersAfter(Overall(|done| + i, lexical, semantic, hybrid), cohorts, done + qs[..i], q, resultsOf);
      assert done + qs[..i] + [q] == done + qs[..i + 1];
      lexical.AddResult(results.lexical, q);
      semantic.AddResult(results.semantic, q);
      hybrid.AddResult(results.hybrid, q);
      var entry := if q.cohort in cohorts then cohorts[q.cohort] else NO_CHANNELS;
      cohorts := cohorts[q.cohort := CountedAll(entry, results, q)];
    }
    assert qs[..|qs|] == qs;
  }

  /** The loop of `evaluateSemanticBenchmark` over actors and questions: at the end every question has been counted
      once, and in every channel the cohorts' figures add up to the overall ones. */
  method EvaluateChannels(c: ScaleCorpus, resultsOf: Question -> Results)
    returns (overall: Channels, cohorts: map<Cohort, Channels>)
    ensures Ledgers(overall, cohorts, ByActor(c.questions), resultsOf)
    ensures overall.questions == |c.questions|
  {
    hide Ledgers, OfActor;
    var lexical := new Accumulator();
    var semantic := new Accumulator();
    var hybrid := new Accumulator();
    LedgersEmpty(resultsOf);
    cohorts := map[];
    ghost var done := [];
    for i := 0 to 3
      invariant done == ActorsDone(c.questions, i) && fresh({lexical, semantic, hybrid})
      invariant Ledgers(Overall(|done|, lexical, semantic, hybrid), cohorts, done, resultsOf)
    {
      cohorts := EvaluateActor(OfActor(c.questions, ACTORS[i]), resultsOf, lexical, semantic, hybrid, cohorts, done);
      done := done + OfActor(c.questions, ACTORS[i]);
    }
    AllActors(c.questions);
    EveryQuestionOnce(c.questions);
    overall := Overall(|c.questions|, lexical, semantic, hybrid);
  }

  // ---- The published metrics

  datatype Summary = Summary(precision: real, recall: real, meanReciprocalRank: real, leaks: nat)

  /** `metrics` */
  function MetricsOf(t: Totals, questionCount: nat): Summary {
    Summary(
      if t.totalReturned == 0 then 0.0 else t.expectedReturned as real / t.totalReturned as real,
      if t.totalExpected == 0 then 0.0 else t.expectedReturned as real / t.totalExpected as real,
      if questionCount == 0 then 0.0 else t.reciprocalRankTotal / questionCount as real,
      t.forbiddenReturned)
  }

  /** The figures of `n` questions. */
  predicate Bounded(t: Totals, n: nat) {
    t.expectedReturned <= t.totalReturned && 0.0 <= t.reciprocalRankTotal <= n as real
  }

  lemma {:induction false} CountBounds(returned: seq<Id>, wanted: set<Id>)
    ensures CountIn(returned, wanted) <= |returned|
    ensures Distinct(returned) ==> CountIn(returned, wanted) <= |wanted|
  {
    var kept := Filter(returned, (id: Id) => id in wanted);
    FilterNoLonger(returned, (id: Id) => id in wanted);
    if Distinct(returned) {
      FilterDistinct(returned, (id: Id) => id in wanted);
      FilterMembers(returned, (id: Id) => id in wanted);
      DistinctCount(kept);
      SubsetCount(Elements(kept), wanted);
    }
  }

  /** In a list without repeats the count is the size of an intersection. */
  lemma CountIsIntersection(returned: seq<Id>, wanted: set<Id>)
    requires Distinct(returned)
    ensures CountIn(returned, wanted) == |Elements(returned) * wanted|
  {
    var kept := Filter(returned, (id: Id) => id in wanted);
    FilterDistinct(returned, (id: Id) => id in wanted);
    FilterMembers(returned, (id: Id) => id in wanted);
    DistinctCount(kept);
    assert Elements(kept) == Elements(returned) * wanted;
  }

  /** The index that the reciprocal rank uses is the first one of a wanted record. */
  lemma {:induction false} FirstIndexIsFirst(returned: seq<Id>, wanted: set<Id>)
    ensures match FirstIndex(returned, wanted)
            case None => forall i :: 0 <= i < |returned| ==> returned[i] !in wanted
            case Some(i) => i < |returned| && returned[i] in wanted && forall j :: 0 <= j < i ==> returned[j] !in wanted
  {
    if returned != [] {
      FirstIndexIsFirst(DropLast(returned), wanted);
    }
  }

  /** A search that returns exactly the expected records scores full precision, recall and rank, and leaks nothing. */
  lemma PerfectSearchScoresOne(returned: seq<Id>, q: Question)
    requires Distinct(returned) && returned != [] && Elements(returned) == Elements(q.expectedRecordIds)
    requires Elements(q.expectedRecordIds) !! Elements(q.forbiddenRecordIds)
    ensures MetricsOf(Scored(returned, q), 1) == Summary(1.0, 1.0, 1.0, 0)
  {
    hide MetricsOf, ReciprocalRank, CountIn;
    var expected, forbidden := Elements(q.expectedRecordIds), Elements(q.forbiddenRecordIds);
    CountIsIntersection(returned, expected);
    CountIsIntersection(returned, forbidden);
    DistinctCount(returned);
    assert Elements(returned) * expected == expected && Elements(returned) * forbidden == {};
    LeaderRanksFirst(returned, expected);
    PerfectTotals(Scored(returned, q));
  }

  lemma LeaderRanksFirst(returned: seq<Id>, wanted: set<Id>)
    requires returned != [] && returned[0] in wanted
    ensures ReciprocalRank(returned, wanted) == 1.0
  {
    FirstIndexIsFirst(returned, wanted);
  }

  lemma PerfectTotals(t: Totals)
    requires t.expectedReturned == t.totalReturned == t.totalExpected > 0 && t.forbiddenReturned == 0
             && t.reciprocalRankTotal == 1.0
    ensures MetricsOf(t, 1) == Summary(1.0, 1.0, 1.0, 0)
  {
    var n := t.expectedReturned as real;
    QuotientWithin(n, n, 1.0, 1.0);
  }

  lemma ReciprocalRankBounds(returned: seq<Id>, wanted: set<Id>)
    ensures 0.0 <= ReciprocalRank(returned, wanted) <= 1.0
  {
    var i := FirstIndex(returned, wanted);
    if i.Some? {
      var n := (i.value + 1) as real;
      assert ReciprocalRank(returned, wanted) * n == 1.0;
      assert n >= 1.0;
    }
  }

  lemma ScoredBounds(returned: seq<Id>, q: Question)
    ensures Bounded(Scored(returned, q), 1)
    ensures Distinct(returned) ==> Scored(returned, q).expectedReturned <= Scored(returned, q).totalExpected
  {
    CountBounds(returned, Elements(q.expectedRecordIds));
    ReciprocalRankBounds(returned, Elements(q.expectedRecordIds));
  }

  /** Precision and mean reciprocal rank are fractions; recall is one as long as expected records are not counted
      twice. */
  lemma MetricsInUnit(t: Totals, n: nat)
    requires Bounded(t, n)
    ensures 0.0 <= MetricsOf(t, n).precision <= 1.0 && 0.0 <= MetricsOf(t, n).meanReciprocalRank <= 1.0
    ensures MetricsOf(t, n).recall <= 1.0 <==> t.totalExpected == 0 || t.expectedReturned <= t.totalExpected
  {
    if t.totalReturned > 0 {
      QuotientWithin(t.expectedReturned as real, t.totalReturned as real, 0.0, 1.0);
    }
    if n > 0 {
      QuotientWithin(t.reciprocalRankTotal, n as real, 0.0, 1.0);
    }
    if t.totalExpected > 0 {
      AtMostOne(t.expectedReturned, t.totalExpected);
    }
  }

  lemma AtMostOne(a: nat, b: nat)
    requires b > 0
    ensures a as real / b as real <= 1.0 <==> a <= b
  {
    var q := a as real / b as real;
    assert q * b as real == a as real;
    Scale(1.0, q, b as real);
  }

  lemma {:induction false} TotalsBounded(qs: seq<Question>, returnedOf: Question -> seq<Id>)
    ensures Bounded(TotalOf(qs, returnedOf).totals, |qs|)
    ensures (forall q :: q in qs ==> Distinct(returnedOf(q))) ==>
              TotalOf(qs, returnedOf).totals.expectedReturned <= TotalOf(qs, returnedOf).totals.totalExpected
  {
    hide Scored, Distinct;
    if qs != [] {
      TotalsBounded(DropLast(qs), returnedOf);
      ScoredBounds(returnedOf(Last(qs)), Last(qs));
      assert qs == DropLast(qs) + [Last(qs)];
    }
  }

  /** If no list returns a forbidden record, nothing leaks in the sum. */
  lemma {:induction false} NothingLeaks(qs: seq<Question>, returnedOf: Question -> seq<Id>)
    requires forall q :: q in qs ==> CountIn(returnedOf(q), Elements(q.forbiddenRecordIds)) == 0
    ensures TotalOf(qs, returnedOf).totals.forbiddenReturned == 0
  {
    hide CountIn, ReciprocalRank;
    if qs != [] {
      NothingLeaks(DropLast(qs), returnedOf);
      assert Last(qs) in qs;
    }
  }

  lemma CountsNothing(returned: seq<Id>, wanted: set<Id>)
    requires forall id :: id in returned ==> id !in wanted
    ensures CountIn(returned, wanted) == 0
  {
    FilterNone(returned, (id: Id) => id in wanted);
  }

  predicate InUnit(m: Summary) {
    0.0 <= m.precision <= 1.0 && 0.0 <= m.meanReciprocalRank <= 1.0
  }

  function Published(t: Tally): Summary { MetricsOf(t.totals, t.questions) }

  /** The published metrics, for every state of a ledger, overall and per cohort: precision and mean reciprocal rank lie
      in [0, 1], and recall does when no result list repeats a record. */
  lemma LedgerMetrics(overall: Tally, cohorts: map<Cohort, Tally>, done: seq<Question>,
                      returnedOf: Question -> seq<Id>, k: Cohort)
    requires Ledger(overall, cohorts, done, returnedOf)
    ensures InUnit(Published(overall)) && InUnit(Published(CohortOf(cohorts, k)))
    ensures (forall q :: q in done ==> Distinct(returnedOf(q))) ==>
              Published(overall).recall <= 1.0 && Published(CohortOf(cohorts, k)).recall <= 1.0
  {
    hide TotalOf, Reconciled, Distinct, Published, InUnit, InCohort;
    TotalInUnit(done, returnedOf);
    TotalInUnit(InCohort(done, k), returnedOf);
    CohortQuestions(done, k);
  }

  lemma CohortQuestions(qs: seq<Question>, k: Cohort)
    ensures forall q :: q in InCohort(qs, k) ==> q in qs
  {
    FilterMembers(qs, (q: Question) => q.cohort == k);
  }

  lemma TotalInUnit(qs: seq<Question>, returnedOf: Question -> seq<Id>)
    ensures InUnit(Published(TotalOf(qs, returnedOf)))
    ensures (forall q :: q in qs ==> Distinct(returnedOf(q))) ==> Published(TotalOf(qs, returnedOf)).recall <= 1.0
  {
    hide TotalOf, Distinct, MetricsOf, Bounded;
    TotalCounts(qs, returnedOf);
    TotalsBounded(qs, returnedOf);
    MetricsInUnit(TotalOf(qs, returnedOf).totals, |qs|);
  }

  /** Recall is at most 1 against every question exactly for the lists that repeat no record. */
  lemma RecallNeedsDistinctLists(returned: seq<Id>)
    ensures (forall q :: MetricsOf(Scored(returned, q), 1).recall <= 1.0) <==> Distinct(returned)
  {
    if Distinct(returned) {
      forall q
        ensures MetricsOf(Scored(returned, q), 1).recall <= 1.0
      {
        RecallOfOne(returned, q);
      }
    } else {
      var i, j :| 0 <= i < j < |returned| && returned[i] == returned[j];
      var q := Question(returned[i], Alex, ExactName, "", "", returned[i], [returned[i]], []);
      RepeatCounts(returned, i, j);
      assert Elements([returned[i]]) == {returned[i]};
      RecallOfOne(returned, q);
      assert !(MetricsOf(Scored(returned, q), 1).recall <= 1.0);
    }
  }

  lemma RecallOfOne(returned: seq<Id>, q: Question)
    ensures var t := Scored(returned, q); MetricsOf(t, 1).recall <= 1.0 <==>
                                          t.totalExpected == 0 || t.expectedReturned <= t.totalExpected
    ensures Distinct(returned) ==> Scored(returned, q).expectedReturned <= Scored(returned, q).totalExpected
  {
    hide MetricsOf, CountIn, ReciprocalRank, Distinct;
    ScoredBounds(returned, q);
    MetricsInUnit(Scored(returned, q), 1);
  }

  lemma {:induction false} RepeatCounts(returned: seq<Id>, i: nat, j: nat)
    requires i < j < |returned| && returned[i] == returned[j]
    ensures CountIn(returned, {returned[i]}) >= 2
  {
    var wanted := (id: Id) => id in {returned[i]};
    assert returned == returned[..j] + returned[j..];
    FilterAppend(returned[..j], returned[j..], wanted);
    HasOne(returned[..j], i, {returned[i]});
    HasOne(returned[j..], 0, {returned[i]});
    assert CountIn(returned, {returned[i]}) ==
           CountIn(returned[..j], {returned[i]}) + CountIn(returned[j..], {returned[i]}) by {
      CountAppend(returned[..j], returned[j..], {returned[i]});
    }
  }

  lemma CountAppend(a: seq<Id>, b: seq<Id>, wanted: set<Id>)
    ensures CountIn(a + b, wanted) == CountIn(a, wanted) + CountIn(b, wanted)
  {
    FilterAppend(a, b, (id: Id) => id in wanted);
  }

  lemma HasOne(returned: seq<Id>, i: nat, wanted: set<Id>)
    requires i < |returned| && returned[i] in wanted
    ensures CountIn(returned, wanted) >= 1
  {
    FilterMembers(returned, (id: Id) => id in wanted);
    assert returned[i] in Filter(returned, (id: Id) => id in wanted);
  }

  // ---- The searches return every resource at most once

  /** The records of the returned resources, leaving out resources that are not evidence of a known record. */
  function RecordsIn(rows: seq<Id>, known: set<Id>): seq<Id> {
    if rows == [] then []
    else RecordsIn(DropLast(rows), known)
         + if Last(rows).EvidenceResource? && Last(rows).record in known then [Last(rows).record] else []
  }

  /** The lists of one question: the records that the two searches return, and their fusion. */
  function ResultsFor(lexicalRows: Question -> seq<Id>, semanticRows: Question -> seq<Id>, known: set<Id>,
                      localeAtMost: (Id, Id) -> bool, limit: nat): Question -> Results {
    (q: Question) =>
      var lexical, semantic := RecordsIn(lexicalRows(q), known), RecordsIn(semanticRows(q), known);
      Results(lexical, semantic, HybridRecords(lexical, semantic, localeAtMost, limit))
  }

  lemma {:induction false} RecordsInDistinct(rows: seq<Id>, known: set<Id>)
    requires Distinct(rows)
    ensures Distinct(RecordsIn(rows, known))
    ensures forall r :: r in RecordsIn(rows, known) <==> EvidenceResource(r) in rows && r in known
  {
    if rows != [] {
      var d := DropLast(rows);
      RecordsInDistinct(d, known);
      assert rows == d + [Last(rows)];
      LastIsNew(rows);
    }
  }

  /** A search function of the schema returns each resource at most once, for every query. */
  ghost predicate Deduplicates(rowsOf: Question -> seq<Id>) {
    forall q :: Distinct(rowsOf(q))
  }

  /** Deduplicating searches give lists without repeats in all three channels. */
  lemma SearchResultsAreDistinct(lexicalRows: Question -> seq<Id>, semanticRows: Question -> seq<Id>, known: set<Id>,
                                 localeAtMost: (Id, Id) -> bool, limit: nat, channel: Channel, q: Question)
    requires TotalOrder(localeAtMost) && Deduplicates(lexicalRows) && Deduplicates(semanticRows)
    ensures Distinct(ReturnedBy(ResultsFor(lexicalRows, semanticRows, known, localeAtMost, limit), channel)(q))
  {
    hide HybridRecords, Distinct, TotalOrder;
    RecordsInDistinct(lexicalRows(q), known);
    RecordsInDistinct(semanticRows(q), known);
    HybridKeepsTheBest(RecordsIn(lexicalRows(q), known), RecordsIn(semanticRows(q), known), localeAtMost, limit);
    var results := ResultsFor(lexicalRows, semanticRows, known, localeAtMost, limit)(q);
    match channel
    case LexicalChannel => assert ListOf(results, channel) == RecordsIn(lexicalRows(q), known);
    case SemanticChannel => assert ListOf(results, channel) == RecordsIn(semanticRows(q), known);
    case HybridChannel => assert ListOf(results, channel) == results.hybrid;
  }

  /** So all published metrics of the three channels lie in [0, 1], overall and per cohort. */
  lemma ChannelMetricsInUnit(overall: Channels, cohorts: map<Cohort, Channels>, done: seq<Question>,
                             lexicalRows: Question -> seq<Id>, semanticRows: Question -> seq<Id>, known: set<Id>,
                             localeAtMost: (Id, Id) -> bool, limit: nat, channel: Channel, k: Cohort)
    requires TotalOrder(localeAtMost) && Deduplicates(lexicalRows) && Deduplicates(semanticRows)
    requires Ledgers(overall, cohorts, done, ResultsFor(lexicalRows, semanticRows, known, localeAtMost, limit))
    ensures InUnit(Published(TallyOf(overall, channel))) && Published(TallyOf(overall, channel)).recall <= 1.0
    ensures var cohort := CohortOf(CohortTallies(cohorts, channel), k);
            InUnit(Published(cohort)) && Published(cohort).recall <= 1.0
  {
    hide Ledger, Distinct, ResultsFor, MetricsOf, TotalOrder;
    var resultsOf := ResultsFor(lexicalRows, semanticRows, known, localeAtMost, limit);
    forall q
      ensures Distinct(ReturnedBy(resultsOf, channel)(q))
    {
      SearchResultsAreDistinct(lexicalRows, semanticRows, known, localeAtMost, limit, channel, q);
    }
    LedgerMetrics(TallyOf(overall, channel), CohortTallies(cohorts, channel), done, ReturnedBy(resultsOf, channel), k);
  }
}
