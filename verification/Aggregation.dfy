/** `aggregateHypothesisReviewerScores`: total on validated files, and bounded. */
module Aggregation {
  import opened Prelude
  import opened Corpus
  import opened Json
  import opened Text
  import opened Reviewer

  type Reviews = seq<Value>

  // ---- Looking a review up

  /** `reviews.find(review => review.blindCaseId === id)` */
  function FindReview(reviews: Reviews, id: Id): Option<Value> {
    if reviews == [] then None
    else if Field(reviews[0], "blindCaseId") == Key(id) then Some(reviews[0])
    else FindReview(reviews[1..], id)
  }

  function ReviewFor(reviews: Reviews, id: Id): Value {
    match FindReview(reviews, id) case Some(r) => r case None => Undefined
  }

  function ScoreOf(review: Value, d: nat): int
    requires d < 6
  {
    var v := Field(review, DIMENSIONS[d]);
    if v.Number? then v.n.Floor else 0
  }

  function Flag(review: Value, name: string): bool {
    Field(review, name) == Bool(true)
  }

  lemma {:induction false} FindFinds(reviews: Reviews, id: Id, i: nat)
    requires i < |reviews| && Field(reviews[i], "blindCaseId") == Key(id)
    requires forall j :: 0 <= j < i ==> Field(reviews[j], "blindCaseId") != Key(id)
    ensures FindReview(reviews, id) == Some(reviews[i])
  {
    if i > 0 {
      FindFinds(reviews[1..], id, i - 1);
    }
  }

  lemma {:induction false} PresentAt(cases: seq<PacketCase>, n: nat)
    requires Distinct(CaseIds(cases)) && n < |cases|
    ensures CandidatePresent(cases, cases[n].blindCaseId) == cases[n].candidate.Some?
  {
    var ids := CaseIds(cases);
    if n < |cases| - 1 {
      assert ids[n] != ids[|cases| - 1];
      assert CaseIds(DropLast(cases)) == DropLast(ids);
      PresentAt(DropLast(cases), n);
    }
  }

  /** What a case's review holds in a valid file. */
  predicate ReviewFits(review: Value, c: PacketCase) {
    && (c.candidate.Some? ==> forall d :: 0 <= d < 6 ==> 1 <= ScoreOf(review, d) <= 5)
    && (c.candidate.Some? ==> !Flag(review, "missedMaterialPattern"))
    && (c.candidate.None? ==> !Flag(review, "unsupportedCandidate"))
  }

  lemma OkFits(review: Value, cases: seq<PacketCase>, n: nat)
    requires Distinct(CaseIds(cases)) && n < |cases| && ReviewOk(review, cases)
             && ReviewId(review) == cases[n].blindCaseId
    ensures ReviewFits(review, cases[n])
  {
    hide Distinct;
    PresentAt(cases, n);
    if cases[n].candidate.Some? {
      forall d | 0 <= d < 6
        ensures 1 <= ScoreOf(review, d) <= 5
      {
        assert DimensionOk(Field(review, DIMENSIONS[d]), true);
      }
    }
  }

  /** The lookup that the source marks as never missing does not miss: a valid file reviews every case exactly once. */
  lemma FindIsDefined(reviews: Reviews, cases: seq<PacketCase>, n: nat) returns (i: nat)
    requires Distinct(CaseIds(cases)) && n < |cases| && ReviewsOk(reviews, cases)
    ensures i < |reviews| && FindReview(reviews, cases[n].blindCaseId) == Some(reviews[i])
    ensures forall j :: 0 <= j < |reviews| && Field(reviews[j], "blindCaseId") == Key(cases[n].blindCaseId) ==> j == i
    ensures ReviewFits(reviews[i], cases[n])
  {
    hide Distinct, DimensionOk, FlagsOk, CaseIds, ReviewFits, CandidatePresent, ReviewOk;
    forall j | 0 <= j < |reviews|
      ensures Field(reviews[j], "blindCaseId").Key?
    {
      OkHasId(reviews[j], cases);
    }
    assert exists i :: 0 <= i < |reviews| && ReviewId(reviews[i]) == cases[n].blindCaseId;
    i :| 0 <= i < |reviews| && ReviewId(reviews[i]) == cases[n].blindCaseId;
    forall j | 0 <= j < |reviews| && j != i
      ensures Field(reviews[j], "blindCaseId") != Key(cases[n].blindCaseId)
    {
      assert ReviewOk(reviews[j], cases) && ReviewOk(reviews[i], cases);
      assert ReviewId(reviews[j]) != ReviewId(reviews[i]);
    }
    assert ReviewOk(reviews[i], cases);
    FindFinds(reviews, cases[n].blindCaseId, i);
    OkFits(reviews[i], cases, n);
  }

  // ---- The figures

  function SumOf(s: seq<int>): int {
    if s == [] then 0 else SumOf(DropLast(s)) + Last(s)
  }

  function CaseScores(files: seq<Reviews>, id: Id, d: nat): seq<int>
    requires d < 6
  {
    Map(files, (f: Reviews) => ScoreOf(ReviewFor(f, id), d))
  }

  /** `scoreValues[dimension]` */
  function ScoreValues(cases: seq<PacketCase>, files: seq<Reviews>, d: nat): seq<int>
    requires d < 6
  {
    if cases == [] then []
    else ScoreValues(DropLast(cases), files, d) + if Last(cases).candidate.Some? then
           CaseScores(files, Last(cases).blindCaseId, d) else []
  }

  function FlagCount(files: seq<Reviews>, id: Id, name: string): nat {
    |Filter(files, (f: Reviews) => Flag(ReviewFor(f, id), name))|
  }

  function Unsupported(cases: seq<PacketCase>, files: seq<Reviews>): nat {
    if cases == [] then 0
    else Unsupported(DropLast(cases), files)
         + if Last(cases).candidate.Some? then FlagCount(files, Last(cases).blindCaseId, "unsupportedCandidate") else 0
  }

  function Missed(cases: seq<PacketCase>, files: seq<Reviews>): nat {
    if cases == [] then 0
    else Missed(DropLast(cases), files)
         + if Last(cases).candidate.None? then FlagCount(files, Last(cases).blindCaseId, "missedMaterialPattern") else 0
  }

  function Candidates(cases: seq<PacketCase>): (k: nat)
    ensures k <= |cases|
  {
    if cases == [] then 0 else Candidates(DropLast(cases)) + if Last(cases).candidate.Some? then 1 else 0
  }

  function Abs(x: real): real { if x < 0.0 then -x else x }

  function MeanGrounding(files: seq<Reviews>, id: Id): real
    requires files != []
  {
    SumOf(CaseScores(files, id, 0)) as real / |files| as real / 5.0
  }

  function CalibrationDifference(cases: seq<PacketCase>, files: seq<Reviews>): real
    requires files != []
  {
    if cases == [] then 0.0
    else CalibrationDifference(DropLast(cases), files)
         + match Last(cases).candidate case None => 0.0 case Some(c) =>
             Abs(c.confidence - MeanGrounding(files, Last(cases).blindCaseId))
  }

  function Agreements(a: Value, b: Value, dims: nat): nat
    requires dims <= 6
  {
    if dims == 0 then 0
    else Agreements(a, b, dims - 1) + if -1 <= ScoreOf(a, dims - 1) - ScoreOf(b, dims - 1) <= 1 then 1 else 0
  }

  /** Agreements of two reviewers on the candidate cases. */
  function PairAgreements(cases: seq<PacketCase>, f: Reviews, g: Reviews): nat {
    if cases == [] then 0
    else PairAgreements(DropLast(cases), f, g)
         + if Last(cases).candidate.Some? then
           Agreements(ReviewFor(f, Last(cases).blindCaseId), ReviewFor(g, Last(cases).blindCaseId), 6) else 0
  }

  /** Agreements of one reviewer with the next ones, up to `right`. */
  function RowAgreements(cases: seq<PacketCase>, files: seq<Reviews>, left: nat, right: nat): nat
    requires left < right <= |files|
    decreases right
  {
    if right == left + 1 then 0
    else RowAgreements(cases, files, left, right - 1) + PairAgreements(cases, files[left], files[right - 1])
  }

  function AllAgreements(cases: seq<PacketCase>, files: seq<Reviews>, left: nat): nat
    requires left <= |files|
  {
    if left == 0 then 0 else AllAgreements(cases, files, left - 1) + RowAgreements(cases, files, left - 1, |files|)
  }

  /** Pairs of reviewers with the left one below `left`. */
  function PairsBelow(n: nat, left: nat): nat
    requires left <= n
  {
    if left == 0 then 0 else PairsBelow(n, left - 1) + (n - left)
  }

  lemma {:induction false} PairsClosed(n: nat, left: nat)
    requires left <= n
    ensures 2 * PairsBelow(n, left) == left * (2 * n - left - 1)
  {
    if left > 0 {
      PairsClosed(n, left - 1);
    }
  }

  // ---- The report

  datatype Report = Report(
    reviewers: nat, cases: nat, means: seq<Option<real>>, unsupportedCandidateRate: real,
    missedMaterialPatternRate: real,
    confidenceCalibrationMae: real, reviewerAgreementWithinOne: real, totalPairs: nat, provisionalGate: bool)

  /** A mean over no values is not a number. */
  function Mean(values: seq<int>): Option<real> {
    if values == [] then None else Some(SumOf(values) as real / |values| as real)
  }

  function Rate(a: nat, b: nat): real { if b == 0 then 0.0 else a as real / b as real }

  predicate AtLeast(mean: Option<real>, bound: real) { mean.Some? && mean.value >= bound }

  function TotalPairs(cases: seq<PacketCase>, n: nat): nat {
    6 * Candidates(cases) * PairsBelow(n, n)
  }

  function MeansOf(cases: seq<PacketCase>, files: seq<Reviews>): seq<Option<real>> {
    seq(6, d requires 0 <= d < 6 => Mean(ScoreValues(cases, files, d)))
  }

  /** Grounding and falsifiability at least 4, usefulness and contradiction handling at least 3.5, few unsupported
      candidates and missed patterns, confidences near the reviewers' grounding, and reviewers that agree. */
  predicate Gate(means: seq<Option<real>>, unsupported: real, missed: real, mae: real, agreement: real)
    requires |means| == 6
  {
    && AtLeast(means[0], 4.0) && AtLeast(means[2], 3.5) && AtLeast(means[3], 4.0) && AtLeast(means[4], 3.5)
    && unsupported <= 0.05 && missed <= 0.1 && mae <= 0.2 && agreement >= 0.75
  }

  function ReportOf(cases: seq<PacketCase>, files: seq<Reviews>): Report
    requires files != []
  {
    var n, k := |files|, Candidates(cases);
    var means := MeansOf(cases, files);
    var unsupported, missed := Rate(Unsupported(cases, files), k * n), Rate(Missed(cases, files), (|cases| - k) * n);
    var mae := if k == 0 then 0.0 else CalibrationDifference(cases, files) / k as real;
    var agreement := Rate(AllAgreements(cases, files, n), TotalPairs(cases, n));
    Report(n, |cases|, means, unsupported, missed, mae, agreement, TotalPairs(cases, n),
           Gate(means, unsupported, missed, mae, agreement))
  }

  // ---- The loops

  /** `scoreValues[dimension].push(review[dimension])` for the six dimensions. */
  method PushScores(values: seq<seq<int>>, review: Value) returns (scores: seq<seq<int>>)
    requires |values| == 6
    ensures |scores| == 6 && forall d :: 0 <= d < 6 ==> scores[d] == values[d] + [ScoreOf(review, d)]
  {
    hide ScoreOf;
    scores := values;
    for d := 0 to 6
      invariant |scores| == 6
      invariant forall e :: 0 <= e < 6 ==> scores[e] == if e < d then values[e] + [ScoreOf(review, e)] else values[e]
    {
      scores := scores[d := scores[d] + [ScoreOf(review, d)]];
    }
  }

  /** The lists have grown by the scores that the files give to one case. */
  ghost predicate Pushed(values: seq<seq<int>>, scores: seq<seq<int>>, files: seq<Reviews>, id: Id) {
    |scores| == |values| == 6 && forall d :: 0 <= d < 6 ==> scores[d] == values[d] + CaseScores(files, id, d)
  }

  lemma PushedNext(values: seq<seq<int>>, scores: seq<seq<int>>, next: seq<seq<int>>, files: seq<Reviews>, f: Reviews,
                   id: Id)
    requires Pushed(values, scores, files, id)
    requires |next| == 6 && forall d :: 0 <= d < 6 ==> next[d] == scores[d] + [ScoreOf(ReviewFor(f, id), d)]
    ensures Pushed(values, next, files + [f], id)
  {
    hide ScoreOf, ReviewFor;
    forall d | 0 <= d < 6
      ensures next[d] == values[d] + CaseScores(files + [f], id, d)
    {
      assert CaseScores(files + [f], id, d) == CaseScores(files, id, d) + [ScoreOf(ReviewFor(f, id), d)];
    }
  }

  /** The running totals of the aggregation. */
  datatype Tally = Tally(
    values: seq<seq<int>>, unsupported: nat, missed: nat, candidateAssessments: nat, emptyAssessments: nat,
    calibrationDifference: real, calibrationCases: nat)

  const NO_TALLY := Tally([[], [], [], [], [], []], 0, 0, 0, 0, 0.0, 0)

  /** The loop over the reviews of a case with a candidate. */
  method TallyCandidate(files: seq<Reviews>, id: Id, t: Tally) returns (u: Tally)
    requires |t.values| == 6
    ensures Pushed(t.values, u.values, files, id)
    ensures u == t.(values := u.values, unsupported := t.unsupported + FlagCount(files, id, "unsupportedCandidate"),
                 candidateAssessments := t.candidateAssessments + |files|)
  {
    hide FindReview, ScoreOf, Flag, ReviewFor, Pushed;
    var scores, unsupported, assessed := t.values, t.unsupported, t.candidateAssessments;
    assert Pushed(t.values, scores, files[..0], id) by { NothingPushed(t.values, files[..0], id); }
    for i := 0 to |files|
      invariant |scores| == 6 && Pushed(t.values, scores, files[..i], id)
      invariant unsupported == t.unsupported + FlagCount(files[..i], id, "unsupportedCandidate")
                && assessed == t.candidateAssessments + i
    {
      assert DropLast(files[..i + 1]) == files[..i] && Last(files[..i + 1]) == files[i];
      assert files[..i] + [files[i]] == files[..i + 1];
      var review := ReviewFor(files[i], id);
      var next := PushScores(scores, review);
      PushedNext(t.values, scores, next, files[..i], files[i], id);
      scores := next;
      if Flag(review, "unsupportedCandidate") { unsupported := unsupported + 1; }
      assessed := assessed + 1;
    }
    assert files[..|files|] == files;
    u := t.(values := scores, unsupported := unsupported, candidateAssessments := assessed);
  }

  lemma NothingPushed(values: seq<seq<int>>, files: seq<Reviews>, id: Id)
    requires |values| == 6 && files == []
    ensures Pushed(values, values, files, id)
  {
  }

  /** The loop over the reviews of a case without one. */
  method TallyEmpty(files: seq<Reviews>, id: Id, t: Tally) returns (u: Tally)
    ensures u == t.(missed := t.missed + FlagCount(files, id, "missedMaterialPattern"),
                 emptyAssessments := t.emptyAssessments + |files|)
  {
    hide FindReview, Flag;
    var missed, assessed := t.missed, t.emptyAssessments;
    for i := 0 to |files|
      invariant missed == t.missed + FlagCount(files[..i], id, "missedMaterialPattern")
                && assessed == t.emptyAssessments + i
    {
      assert DropLast(files[..i + 1]) == files[..i] && Last(files[..i + 1]) == files[i];
      if Flag(ReviewFor(files[i], id), "missedMaterialPattern") { missed := missed + 1; }
      assessed := assessed + 1;
    }
    assert files[..|files|] == files;
    u := t.(missed := missed, emptyAssessments := assessed);
  }

  method CountPair(cases: seq<PacketCase>, f: Reviews, g: Reviews, within0: nat, total0: nat)
    returns (within: nat, total: nat)
    ensures within == within0 + PairAgreements(cases, f, g) && total == total0 + 6 * Candidates(cases)
  {
    hide FindReview, ScoreOf;
    within, total := within0, total0;
    for i := 0 to |cases|
      invariant within == within0 + PairAgreements(cases[..i], f, g) && total == total0 + 6 * Candidates(cases[..i])
    {
      assert DropLast(cases[..i + 1]) == cases[..i] && Last(cases[..i + 1]) == cases[i];
      if cases[i].candidate.Some? {
        var a, b := ReviewFor(f, cases[i].blindCaseId), ReviewFor(g, cases[i].blindCaseId);
        ghost var within1, total1 := within, total;
        for d := 0 to 6
          invariant within == within1 + Agreements(a, b, d) && total == total1 + d
        {
          total := total + 1;
          if -1 <= ScoreOf(a, d) - ScoreOf(b, d) <= 1 { within := within + 1; }
        }
      }
    }
    assert cases[..|cases|] == cases;
  }

  /** The loop over pairs of reviewers. */
  method CountPairs(cases: seq<PacketCase>, files: seq<Reviews>) returns (within: nat, total: nat)
    ensures within == AllAgreements(cases, files, |files|) && total == TotalPairs(cases, |files|)
  {
    hide PairAgreements, Candidates;
    within, total := 0, 0;
    var n, k := |files|, Candidates(cases);
    for left := 0 to n
      invariant within == AllAgreements(cases, files, left) && total == 6 * k * PairsBelow(n, left)
    {
      ghost var within1, total1 := within, total;
      for right := left + 1 to n
        invariant within == within1 + RowAgreements(cases, files, left, right)
                  && total == total1 + 6 * k * (right - left - 1)
      {
        within, total := CountPair(cases, files[left], files[right], within, total);
        assert 6 * k * (right - left - 1) + 6 * k == 6 * k * (right - left);
      }
      assert 6 * k * PairsBelow(n, left) + 6 * k * (n - left - 1) == 6 * k * PairsBelow(n, left + 1);
    }
  }

  /** The totals are those of the cases. */
  ghost predicate Tallied(cases: seq<PacketCase>, files: seq<Reviews>, t: Tally)
    requires files != []
  {
    && |t.values| == 6 && (forall d :: 0 <= d < 6 ==> t.values[d] == ScoreValues(cases, files, d))
    && t.unsupported == Unsupported(cases, files) && t.missed == Missed(cases, files)
    && t.calibrationCases == Candidates(cases) && t.calibrationDifference == CalibrationDifference(cases, files)
    && t.candidateAssessments == Candidates(cases) * |files|
    && t.emptyAssessments == (|cases| - Candidates(cases)) * |files|
  }

  lemma TalliedCandidate(cases: seq<PacketCase>, c: PacketCase, files: seq<Reviews>, t: Tally, values: seq<seq<int>>)
    requires files != [] && Tallied(cases, files, t) && c.candidate.Some?
             && Pushed(t.values, values, files, c.blindCaseId)
    ensures Tallied(cases + [c], files,
                    t.(values := values, unsupported := t.unsupported
                    + FlagCount(files, c.blindCaseId, "unsupportedCandidate"),
                    candidateAssessments := t.candidateAssessments + |files|,
                    calibrationDifference := t.calibrationDifference
                    + Abs(c.candidate.value.confidence - MeanGrounding(files, c.blindCaseId)),
                    calibrationCases := t.calibrationCases + 1))
  {
    hide FlagCount, CaseScores, MeanGrounding;
    assert DropLast(cases + [c]) == cases;
    assert (Candidates(cases) + 1) * |files| == Candidates(cases) * |files| + |files|;
  }

  lemma TalliedEmpty(cases: seq<PacketCase>, c: PacketCase, files: seq<Reviews>, t: Tally)
    requires files != [] && Tallied(cases, files, t) && c.candidate.None?
    ensures Tallied(cases + [c], files,
                    t.(missed := t.missed + FlagCount(files, c.blindCaseId, "missedMaterialPattern"),
                    emptyAssessments := t.emptyAssessments + |files|))
  {
    hide FlagCount, CaseScores, MeanGrounding;
    assert DropLast(cases + [c]) == cases;
    var empties := |cases| - Candidates(cases);
    assert (empties + 1) * |files| == empties * |files| + |files|;
  }

  lemma NothingTallied(cases: seq<PacketCase>, files: seq<Reviews>)
    requires files != [] && cases == []
    ensures Tallied(cases, files, NO_TALLY)
  {
    assert Candidates(cases) * |files| == 0;
  }

  /** The loop over the cases of the packet. */
  method TallyCases(cases: seq<PacketCase>, files: seq<Reviews>) returns (t: Tally)
    requires files != []
    ensures Tallied(cases, files, t)
  {
    hide Tallied, Pushed, FlagCount, MeanGrounding;
    t := NO_TALLY;
    NothingTallied(cases[..0], files);
    for i := 0 to |cases|
      invariant |t.values| == 6 && Tallied(cases[..i], files, t)
    {
      var c := cases[i];
      assert cases[..i] + [c] == cases[..i + 1];
      if c.candidate.Some? {
        var u := TallyCandidate(files, c.blindCaseId, t);
        TalliedCandidate(cases[..i], c, files, t, u.values);
        PushedSize(t.values, u.values, files, c.blindCaseId);
        t := u.(calibrationDifference := u.calibrationDifference
        + Abs(c.candidate.value.confidence - MeanGrounding(files, c.blindCaseId)),
        calibrationCases := u.calibrationCases + 1);
      } else {
        TalliedEmpty(cases[..i], c, files, t);
        t := TallyEmpty(files, c.blindCaseId, t);
      }
    }
    assert cases[..|cases|] == cases;
  }

  lemma PushedSize(values: seq<seq<int>>, scores: seq<seq<int>>, files: seq<Reviews>, id: Id)
    requires Pushed(values, scores, files, id)
    ensures |scores| == 6
  {
  }

  datatype AggregationError = TooFewReviewers | SameReviewer | InvalidFile(errors: seq<ScoreError>)

  function ReviewerName(scores: Value): string {
    var name := Field(Field(scores, "reviewer"), "name");
    if name.Text? then Lower(Trim(name.s)) else ""
  }

  function ReviewsIn(scores: Value): Reviews {
    var reviews := Field(scores, "reviews");
    if reviews.Array? then reviews.items else []
  }

  /** At least two files, by different people, each valid. */
  ghost predicate FilesOk(cases: seq<PacketCase>, scores: seq<Value>, isDate: string -> bool) {
    && |scores| >= 2 && Distinct(Map(scores, ReviewerName))
    && forall i :: 0 <= i < |scores| ==> ScoresOk(cases, scores[i], isDate)
  }

  /** `aggregateHypothesisReviewerScores` */
  method Aggregate(cases: seq<PacketCase>, scores: seq<Value>, isDate: string -> bool)
    returns (r: Result<Report, AggregationError>)
    ensures r.Success? <==> FilesOk(cases, scores, isDate)
    ensures r.Success? ==> r.value == ReportOf(cases, Map(scores, ReviewsIn))
  {
    hide ScoresOk, Tallied, ScoreValues, Unsupported, Missed, CalibrationDifference, AllAgreements, TotalPairs, Gate,
      Distinct, Candidates, MeansOf, Rate, Mean;
    if |scores| < 2 {
      return Failure(TooFewReviewers);
    }
    DistinctCount(Map(scores, ReviewerName));
    if |Elements(Map(scores, ReviewerName))| != |scores| {
      return Failure(SameReviewer);
    }
    for i := 0 to |scores|
      invariant forall j :: 0 <= j < i ==> ScoresOk(cases, scores[j], isDate)
    {
      var errors := ValidateScores(cases, scores[i], isDate);
      if errors != [] {
        return Failure(InvalidFile(errors));
      }
    }
    var files := Map(scores, ReviewsIn);
    var t := TallyCases(cases, files);
    var within, total := CountPairs(cases, files);
    TalliedMeans(cases, files, t);
    var means := seq(6, d requires 0 <= d < 6 => Mean(t.values[d]));
    var unsupportedRate, missedRate := Rate(t.unsupported, t.candidateAssessments), Rate(t.missed, t.emptyAssessments);
    var mae := if t.calibrationCases == 0 then 0.0 else t.calibrationDifference / t.calibrationCases as real;
    var agreement := Rate(within, total);
    r := Success(Report(|files|, |cases|, means, unsupportedRate, missedRate, mae, agreement, total,
                        Gate(means, unsupportedRate, missedRate, mae, agreement)));
  }

  lemma TalliedMeans(cases: seq<PacketCase>, files: seq<Reviews>, t: Tally)
    requires files != [] && Tallied(cases, files, t)
    ensures |t.values| == 6 && seq(6, d requires 0 <= d < 6 => Mean(t.values[d])) == MeansOf(cases, files)
    ensures t.unsupported == Unsupported(cases, files) && t.missed == Missed(cases, files)
    ensures t.calibrationCases == Candidates(cases) && t.calibrationDifference == CalibrationDifference(cases, files)
    ensures t.candidateAssessments == Candidates(cases) * |files|
            && t.emptyAssessments == (|cases| - Candidates(cases)) * |files|
  {
    hide Mean, ScoreValues, Unsupported, Missed, Candidates, CalibrationDifference;
  }
}
