/** On validated files the aggregated figures are complete and stay in their ranges. */
module AggregationBounds {
  import opened Prelude
  import opened Corpus
  import opened Json
  import opened Reviewer
  import opened Aggregation

  /** Every file reviews every case, with scores in range where there is a candidate. */
  ghost predicate Complete(cases: seq<PacketCase>, files: seq<Reviews>) {
    forall n, f :: 0 <= n < |cases| && 0 <= f < |files| ==>
                     ReviewFits(ReviewFor(files[f], cases[n].blindCaseId), cases[n])
  }

  /** Confidences are fractions. */
  predicate ConfidentWithin(cases: seq<PacketCase>) {
    forall n :: 0 <= n < |cases| && cases[n].candidate.Some? ==> 0.0 <= cases[n].candidate.value.confidence <= 1.0
  }

  lemma FilesAreComplete(cases: seq<PacketCase>, scores: seq<Value>, isDate: string -> bool)
    requires Distinct(CaseIds(cases)) && FilesOk(cases, scores, isDate)
    ensures Complete(cases, Map(scores, ReviewsIn))
  {
    hide HeaderOk, ReviewsOk, Distinct, CaseIds, ReviewFits, FindReview, Field;
    var files := Map(scores, ReviewsIn);
    forall n, f | 0 <= n < |cases| && 0 <= f < |files|
      ensures ReviewFits(ReviewFor(files[f], cases[n].blindCaseId), cases[n])
    {
      assert ScoresOk(cases, scores[f], isDate);
      NeedsHeader(scores[f], isDate);
      var i := FindIsDefined(files[f], cases, n);
    }
  }

  // ---- Counts

  lemma FlagsBounded(files: seq<Reviews>, id: Id, name: string)
    ensures FlagCount(files, id, name) <= |files|
  {
    FilterNoLonger(files, (f: Reviews) => Flag(ReviewFor(f, id), name));
  }

  lemma OneMore(k: int, n: int)
    ensures (k + 1) * n == k * n + n
  {
  }

  lemma {:induction false} CountsBounded(cases: seq<PacketCase>, files: seq<Reviews>)
    ensures Unsupported(cases, files) <= Candidates(cases) * |files|
    ensures Missed(cases, files) <= (|cases| - Candidates(cases)) * |files|
  {
    hide FlagCount;
    if cases != [] {
      var d, c, n := DropLast(cases), Last(cases), |files|;
      CountsBounded(d, files);
      FlagsBounded(files, c.blindCaseId, "unsupportedCandidate");
      FlagsBounded(files, c.blindCaseId, "missedMaterialPattern");
      OneMore(Candidates(d), n);
      OneMore(|d| - Candidates(d), n);
    }
  }

  lemma CompleteDrop(cases: seq<PacketCase>, files: seq<Reviews>)
    requires cases != [] && Complete(cases, files)
    ensures Complete(DropLast(cases), files)
    ensures forall f :: 0 <= f < |files| ==> ReviewFits(ReviewFor(files[f], Last(cases).blindCaseId), Last(cases))
  {
    var d := DropLast(cases);
    forall n, f | 0 <= n < |d| && 0 <= f < |files|
      ensures ReviewFits(ReviewFor(files[f], d[n].blindCaseId), d[n])
    {
      assert d[n] == cases[n];
    }
    assert cases[|cases| - 1] == Last(cases);
  }

  predicate InScale(s: seq<int>) {
    forall i :: 0 <= i < |s| ==> 1 <= s[i] <= 5
  }

  lemma CaseInScale(c: PacketCase, files: seq<Reviews>, d: nat)
    requires d < 6 && c.candidate.Some? && forall f :: 0 <= f < |files| ==>
                                                         ReviewFits(ReviewFor(files[f], c.blindCaseId), c)
    ensures InScale(CaseScores(files, c.blindCaseId, d)) && |CaseScores(files, c.blindCaseId, d)| == |files|
  {
    hide ReviewFor, ScoreOf;
    forall f | 0 <= f < |files|
      ensures 1 <= CaseScores(files, c.blindCaseId, d)[f] <= 5
    {
      assert ReviewFits(ReviewFor(files[f], c.blindCaseId), c);
    }
  }

  lemma {:induction false} ScoresInScale(cases: seq<PacketCase>, files: seq<Reviews>, d: nat)
    requires d < 6 && Complete(cases, files)
    ensures InScale(ScoreValues(cases, files, d)) && |ScoreValues(cases, files, d)| == Candidates(cases) * |files|
  {
    hide ReviewFor, ScoreOf;
    hide CaseScores, Complete, ReviewFits;
    if cases != [] {
      var c, k := Last(cases), Candidates(DropLast(cases));
      CompleteDrop(cases, files);
      ScoresInScale(DropLast(cases), files, d);
      assert (k + 1) * |files| == k * |files| + |files|;
      if c.candidate.Some? {
        CaseInScale(c, files, d);
      }
    } else {
      assert 0 * |files| == 0;
    }
  }

  lemma {:induction false} SumInScale(s: seq<int>)
    requires InScale(s)
    ensures |s| <= SumOf(s) <= 5 * |s|
  {
    if s != [] {
      SumInScale(DropLast(s));
    }
  }

  lemma MeanInScale(values: seq<int>)
    requires InScale(values) && values != []
    ensures 1.0 <= SumOf(values) as real / |values| as real <= 5.0
  {
    SumInScale(values);
    QuotientWithin(SumOf(values) as real, |values| as real, 1.0, 5.0);
  }

  lemma RateInUnit(a: nat, b: nat)
    requires a <= b
    ensures 0.0 <= Rate(a, b) <= 1.0
  {
    if b > 0 {
      QuotientWithin(a as real, b as real, 0.0, 1.0);
    }
  }

  lemma {:induction false} CalibrationBounded(cases: seq<PacketCase>, files: seq<Reviews>)
    requires files != [] && Complete(cases, files) && ConfidentWithin(cases)
    ensures 0.0 <= CalibrationDifference(cases, files) <= Candidates(cases) as real
  {
    hide ReviewFits, ReviewFor;
    if cases != [] {
      var c := Last(cases);
      CompleteDrop(cases, files);
      assert DropLast(cases) + [c] == cases;
      forall n | 0 <= n < |DropLast(cases)|
        ensures DropLast(cases)[n] == cases[n]
      {
      }
      CalibrationBounded(DropLast(cases), files);
      if c.candidate.Some? {
        assert cases[|cases| - 1] == c;
        GroundingInUnit(c, files);
      }
    }
  }

  lemma GroundingInUnit(c: PacketCase, files: seq<Reviews>)
    requires files != [] && c.candidate.Some?
    requires forall f :: 0 <= f < |files| ==> ReviewFits(ReviewFor(files[f], c.blindCaseId), c)
    ensures 0.0 <= MeanGrounding(files, c.blindCaseId) <= 1.0
  {
    hide ReviewFor, ScoreOf;
    CaseInScale(c, files, 0);
    MeanInScale(CaseScores(files, c.blindCaseId, 0));
  }

  // ---- Agreement

  lemma {:induction false} AgreementsBounded(a: Value, b: Value, dims: nat)
    requires dims <= 6
    ensures Agreements(a, b, dims) <= dims
  {
    if dims > 0 {
      AgreementsBounded(a, b, dims - 1);
    }
  }

  lemma {:induction false} PairBounded(cases: seq<PacketCase>, f: Reviews, g: Reviews)
    ensures PairAgreements(cases, f, g) <= 6 * Candidates(cases)
  {
    hide Agreements;
    if cases != [] {
      PairBounded(DropLast(cases), f, g);
      AgreementsBounded(ReviewFor(f, Last(cases).blindCaseId), ReviewFor(g, Last(cases).blindCaseId), 6);
    }
  }

  lemma {:induction false} RowBounded(cases: seq<PacketCase>, files: seq<Reviews>, left: nat, right: nat)
    requires left < right <= |files|
    ensures RowAgreements(cases, files, left, right) <= 6 * Candidates(cases) * (right - left - 1)
    decreases right
  {
    hide PairAgreements, Candidates;
    var k := 6 * Candidates(cases);
    if right > left + 1 {
      RowBounded(cases, files, left, right - 1);
      PairBounded(cases, files[left], files[right - 1]);
      assert k * (right - left - 1) == k * (right - left - 2) + k;
    } else {
      assert k * 0 == 0;
    }
  }

  lemma {:induction false} AgreementBounded(cases: seq<PacketCase>, files: seq<Reviews>, left: nat)
    requires left <= |files|
    ensures AllAgreements(cases, files, left) <= 6 * Candidates(cases) * PairsBelow(|files|, left)
  {
    hide RowAgreements, Candidates;
    var k, n := 6 * Candidates(cases), |files|;
    if left > 0 {
      AgreementBounded(cases, files, left - 1);
      RowBounded(cases, files, left - 1, n);
      assert k * PairsBelow(n, left) == k * PairsBelow(n, left - 1) + k * (n - left);
    } else {
      assert k * 0 == 0;
    }
  }

  // ---- Unanimous reviewers

  lemma {:induction false} SelfAgreement(a: Value, dims: nat)
    requires dims <= 6
    ensures Agreements(a, a, dims) == dims
  {
    if dims > 0 {
      SelfAgreement(a, dims - 1);
    }
  }

  lemma {:induction false} PairUnanimous(cases: seq<PacketCase>, f: Reviews)
    ensures PairAgreements(cases, f, f) == 6 * Candidates(cases)
  {
    hide Agreements;
    if cases != [] {
      PairUnanimous(DropLast(cases), f);
      SelfAgreement(ReviewFor(f, Last(cases).blindCaseId), 6);
    }
  }

  lemma {:induction false} RowUnanimous(cases: seq<PacketCase>, files: seq<Reviews>, left: nat, right: nat)
    requires left < right <= |files| && forall i :: 0 <= i < |files| ==> files[i] == files[0]
    ensures RowAgreements(cases, files, left, right) == 6 * Candidates(cases) * (right - left - 1)
    decreases right
  {
    hide PairAgreements, Candidates;
    var k := 6 * Candidates(cases);
    if right > left + 1 {
      RowUnanimous(cases, files, left, right - 1);
      PairUnanimous(cases, files[0]);
      assert k * (right - left - 1) == k * (right - left - 2) + k;
    } else {
      assert k * 0 == 0;
    }
  }

  lemma {:induction false} AllUnanimous(cases: seq<PacketCase>, files: seq<Reviews>, left: nat)
    requires left <= |files| && forall i :: 0 <= i < |files| ==> files[i] == files[0]
    ensures AllAgreements(cases, files, left) == 6 * Candidates(cases) * PairsBelow(|files|, left)
  {
    hide RowAgreements, Candidates;
    var k, n := 6 * Candidates(cases), |files|;
    if left > 0 {
      AllUnanimous(cases, files, left - 1);
      RowUnanimous(cases, files, left - 1, n);
      assert k * PairsBelow(n, left) == k * PairsBelow(n, left - 1) + k * (n - left);
    } else {
      assert k * 0 == 0;
    }
  }

  /** Reviewers who return the same reviews agree on every compared pair. */
  lemma UnanimousReviewersAgree(cases: seq<PacketCase>, files: seq<Reviews>)
    requires |files| >= 2 && Candidates(cases) > 0 && forall i :: 0 <= i < |files| ==> files[i] == files[0]
    ensures ReportOf(cases, files).reviewerAgreementWithinOne == 1.0
  {
    hide AllAgreements, Candidates, MeansOf, Unsupported, Missed, CalibrationDifference, Gate, PairsBelow, Rate;
    AllUnanimous(cases, files, |files|);
    TotalPairsClosed(cases, |files|);
    PairsExist(Candidates(cases), |files|);
    RateOfAll(TotalPairs(cases, |files|));
  }

  lemma RateOfAll(a: nat)
    requires a > 0
    ensures Rate(a, a) == 1.0
  {
    QuotientWithin(a as real, a as real, 1.0, 1.0);
  }

  lemma PairsExist(k: nat, n: nat)
    requires k > 0 && n >= 2
    ensures 3 * k * n * (n - 1) > 0
  {
    assert 3 * k * n > 0;
  }

  /** The number of compared score pairs: six for every candidate case and every pair of reviewers. */
  lemma TotalPairsClosed(cases: seq<PacketCase>, n: nat)
    ensures TotalPairs(cases, n) == 3 * Candidates(cases) * n * (n - 1)
  {
    hide Candidates;
    var k := Candidates(cases);
    PairsClosed(n, n);
    assert 2 * PairsBelow(n, n) == n * (n - 1);
    assert 6 * k * PairsBelow(n, n) == 3 * k * (2 * PairsBelow(n, n));
    assert 3 * k * (n * (n - 1)) == 3 * k * n * (n - 1);
  }

  /** Aggregation is total and bounded: with n valid files and k candidate cases, every case has one review in every
      file, 3kn(n-1) score pairs are compared, every rate is a fraction, the calibration error is one when confidences
      are, and the means are defined and between 1 and 5 exactly when there is a candidate. */
  lemma AggregationIsBounded(cases: seq<PacketCase>, scores: seq<Value>, isDate: string -> bool)
    requires Distinct(CaseIds(cases)) && FilesOk(cases, scores, isDate)
    ensures var files := Map(scores, ReviewsIn);
            var report, n, k := ReportOf(cases, files), |scores|, Candidates(cases);
            && Complete(cases, files)
            && report.totalPairs == 3 * k * n * (n - 1)
            && 0.0 <= report.unsupportedCandidateRate <= 1.0 && 0.0 <= report.missedMaterialPatternRate <= 1.0
            && 0.0 <= report.reviewerAgreementWithinOne <= 1.0
            && (ConfidentWithin(cases) ==> 0.0 <= report.confidenceCalibrationMae <= 1.0)
            && |report.means| == 6
            && (forall d :: 0 <= d < 6 ==> (report.means[d].Some? <==> k > 0))
            && (forall d :: 0 <= d < 6 && k > 0 ==> 1.0 <= report.means[d].value <= 5.0)
            && (report.provisionalGate ==> k > 0)
  {
    hide Distinct, FilesOk, CaseIds, Complete, Unsupported, Missed, Candidates, CalibrationDifference, AllAgreements,
      ScoreValues, ConfidentWithin,
      TotalPairs;
    var files := Map(scores, ReviewsIn);
    EnoughFiles(cases, scores, isDate);
    FilesAreComplete(cases, scores, isDate);
    CountsBounded(cases, files);
    RateInUnit(Unsupported(cases, files), Candidates(cases) * |files|);
    RateInUnit(Missed(cases, files), (|cases| - Candidates(cases)) * |files|);
    AgreementWithinPairs(cases, files);
    RateInUnit(AllAgreements(cases, files, |files|), TotalPairs(cases, |files|));
    TotalPairsClosed(cases, |files|);
    CalibrationInUnit(cases, files);
    MeansInScale(cases, files);
  }

  lemma EnoughFiles(cases: seq<PacketCase>, scores: seq<Value>, isDate: string -> bool)
    requires FilesOk(cases, scores, isDate)
    ensures |scores| >= 2
  {
  }

  lemma AgreementWithinPairs(cases: seq<PacketCase>, files: seq<Reviews>)
    ensures AllAgreements(cases, files, |files|) <= TotalPairs(cases, |files|)
  {
    AgreementBounded(cases, files, |files|);
  }

  lemma CalibrationInUnit(cases: seq<PacketCase>, files: seq<Reviews>)
    requires files != [] && Complete(cases, files)
    ensures ConfidentWithin(cases) && Candidates(cases) > 0 ==>
              0.0 <= CalibrationDifference(cases, files) / Candidates(cases) as real <= 1.0
  {
    hide Complete, CalibrationDifference, Candidates, ConfidentWithin;
    if ConfidentWithin(cases) && Candidates(cases) > 0 {
      CalibrationBounded(cases, files);
      QuotientWithin(CalibrationDifference(cases, files), Candidates(cases) as real, 0.0, 1.0);
    }
  }

  lemma MeansInScale(cases: seq<PacketCase>, files: seq<Reviews>)
    requires files != [] && Complete(cases, files)
    ensures forall d :: 0 <= d < 6 ==> (MeansOf(cases, files)[d].Some? <==> Candidates(cases) > 0)
    ensures forall d :: 0 <= d < 6 && Candidates(cases) > 0 ==> 1.0 <= MeansOf(cases, files)[d].value <= 5.0
  {
    hide Complete, ScoreValues, Candidates, SumOf, InScale;
    forall d | 0 <= d < 6
      ensures MeansOf(cases, files)[d].Some? <==> Candidates(cases) > 0
      ensures Candidates(cases) > 0 ==> 1.0 <= MeansOf(cases, files)[d].value <= 5.0
    {
      var values := ScoreValues(cases, files, d);
      ScoresInScale(cases, files, d);
      Positive(Candidates(cases), |files|);
      if Candidates(cases) > 0 {
        MeanInScale(values);
      }
    }
  }

  lemma Positive(a: nat, b: nat)
    requires b > 0
    ensures a * b > 0 <==> a > 0
  {
  }
}
