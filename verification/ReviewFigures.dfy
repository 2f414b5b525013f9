/** What the figures of an aggregation count: assessments and comparisons of the scores that the reviewers gave. */
module ReviewFigures {
  import opened Prelude
  import opened Corpus
  import opened Json
  import opened Text
  import opened Reviewer
  import opened Aggregation
  import opened AggregationBounds

  // ---- Scores

  /** The score that a file gives to a case in a dimension. */
  function Score(cases: seq<PacketCase>, files: seq<Reviews>, f: nat, c: nat, d: nat): int
    requires f < |files| && c < |cases| && d < 6
  {
    ScoreOf(ReviewFor(files[f], cases[c].blindCaseId), d)
  }

  /** It is the number under that dimension in the file's only review of the case. */
  lemma ScoreIsGiven(cases: seq<PacketCase>, scores: seq<Value>, isDate: string -> bool, f: nat, c: nat, d: nat)
    requires Distinct(CaseIds(cases)) && FilesOk(cases, scores, isDate)
    requires f < |scores| && c < |cases| && d < 6 && cases[c].candidate.Some?
    ensures var reviews := ReviewsIn(scores[f]);
            exists i :: 0 <= i < |reviews| && Field(reviews[i], "blindCaseId") == Key(cases[c].blindCaseId)
                        && Field(reviews[i], DIMENSIONS[d]) ==
                           Number(Score(cases, Map(scores, ReviewsIn), f, c, d) as real)
  {
    hide HeaderOk, Distinct, CaseIds, FindReview;
    var reviews := ReviewsIn(scores[f]);
    assert ScoresOk(cases, scores[f], isDate);
    NeedsHeader(scores[f], isDate);
    var i := FindIsDefined(reviews, cases, c);
    assert ReviewOk(reviews[i], cases);
    PresentAt(cases, c);
    OkHasId(reviews[i], cases);
    assert DimensionOk(Field(reviews[i], DIMENSIONS[d]), true);
  }

  /** Two files by the same person, written in another case or with spaces around, are not accepted. */
  lemma SamePersonIsRefused(cases: seq<PacketCase>, scores: seq<Value>, isDate: string -> bool, i: nat, j: nat,
                            name: string, again: string)
    requires i < j < |scores| && Lower(Trim(name)) == Lower(Trim(again))
    requires Field(Field(scores[i], "reviewer"), "name") == Value.Text(name)
    requires Field(Field(scores[j], "reviewer"), "name") == Value.Text(again)
    ensures !FilesOk(cases, scores, isDate)
  {
    hide ScoresOk, Trim, Lower;
    assert Map(scores, ReviewerName)[i] == Map(scores, ReviewerName)[j];
  }

  // ---- Comparisons

  /** Two reviewers' scores of one case in one dimension. */
  datatype Comparison = Comparison(left: nat, right: nat, which: nat, dimension: nat)

  ghost function ByDimension(p: Comparison -> bool, left: nat, right: nat, which: nat, k: nat): set<Comparison> {
    set d: nat | d < k && p(Comparison(left, right, which, d)) :: Comparison(left, right, which, d)
  }

  ghost function ByCase(p: Comparison -> bool, left: nat, right: nat, m: nat): set<Comparison> {
    set c: nat, d: nat | c < m && d < 6 && p(Comparison(left, right, c, d)) :: Comparison(left, right, c, d)
  }

  ghost function ByRight(p: Comparison -> bool, left: nat, q: nat, m: nat): set<Comparison> {
    set r: nat, c: nat, d: nat | left < r < q && c < m && d < 6 && p(Comparison(left, r, c, d)) ::
      Comparison(left, r, c, d)
  }

  ghost function ByLeft(p: Comparison -> bool, l: nat, n: nat, m: nat): set<Comparison> {
    set a: nat, r: nat, c: nat, d: nat | a < l && a < r < n && c < m && d < 6 && p(Comparison(a, r, c, d)) ::
      Comparison(a, r, c, d)
  }

  lemma OneDimensionMore(p: Comparison -> bool, left: nat, right: nat, which: nat, k: nat)
    ensures |ByDimension(p, left, right, which, k + 1)| ==
            |ByDimension(p, left, right, which, k)| + if p(Comparison(left, right, which, k)) then 1 else 0
  {
    var x := Comparison(left, right, which, k);
    var before, after := ByDimension(p, left, right, which, k), ByDimension(p, left, right, which, k + 1);
    if p(x) {
      assert after == before + {x};
    } else {
      assert after == before;
    }
  }

  lemma OneCaseMore(p: Comparison -> bool, left: nat, right: nat, m: nat)
    ensures |ByCase(p, left, right, m + 1)| == |ByCase(p, left, right, m)| + |ByDimension(p, left, right, m, 6)|
  {
    assert ByCase(p, left, right, m + 1) == ByCase(p, left, right, m) + ByDimension(p, left, right, m, 6);
    assert ByCase(p, left, right, m) !! ByDimension(p, left, right, m, 6);
  }

  lemma OneRightMore(p: Comparison -> bool, left: nat, q: nat, m: nat)
    requires left < q
    ensures |ByRight(p, left, q + 1, m)| == |ByRight(p, left, q, m)| + |ByCase(p, left, q, m)|
  {
    assert ByRight(p, left, q + 1, m) == ByRight(p, left, q, m) + ByCase(p, left, q, m);
    assert ByRight(p, left, q, m) !! ByCase(p, left, q, m);
  }

  lemma OneLeftMore(p: Comparison -> bool, l: nat, n: nat, m: nat)
    ensures |ByLeft(p, l + 1, n, m)| == |ByLeft(p, l, n, m)| + |ByRight(p, l, n, m)|
  {
    assert ByLeft(p, l + 1, n, m) == ByLeft(p, l, n, m) + ByRight(p, l, n, m);
    assert ByLeft(p, l, n, m) !! ByRight(p, l, n, m);
  }

  /** The comparison is about a case with a candidate. */
  predicate IsCompared(cases: seq<PacketCase>, x: Comparison) {
    x.which < |cases| && cases[x.which].candidate.Some?
  }

  /** And the two scores differ by at most one. */
  predicate IsWithinOne(cases: seq<PacketCase>, files: seq<Reviews>, x: Comparison) {
    && IsCompared(cases, x) && x.left < |files| && x.right < |files| && x.dimension < 6
    && var a, b := Score(cases, files, x.left, x.which, x.dimension),
                   Score(cases, files, x.right, x.which, x.dimension);
    a <= b + 1 && b <= a + 1
  }

  /** The score pairs that are compared, and those within one. */
  ghost function Compared(cases: seq<PacketCase>, n: nat): set<Comparison> {
    set a: nat, r: nat, c: nat, d: nat | a < r < n && c < |cases| && d < 6 && cases[c].candidate.Some? ::
      Comparison(a, r, c, d)
  }

  ghost function WithinOne(cases: seq<PacketCase>, files: seq<Reviews>): set<Comparison> {
    set x | x in Compared(cases, |files|) && IsWithinOne(cases, files, x)
  }

  function Within(cases: seq<PacketCase>, files: seq<Reviews>): Comparison -> bool {
    (x: Comparison) => IsWithinOne(cases, files, x)
  }

  function Of(cases: seq<PacketCase>): Comparison -> bool {
    (x: Comparison) => IsCompared(cases, x)
  }

  lemma {:induction false} DimensionsAgree(cases: seq<PacketCase>, files: seq<Reviews>, l: nat, r: nat, c: nat, k: nat)
    requires l < r < |files| && c < |cases| && k <= 6 && cases[c].candidate.Some?
    ensures |ByDimension(Within(cases, files), l, r, c, k)| ==
            Agreements(ReviewFor(files[l], cases[c].blindCaseId), ReviewFor(files[r], cases[c].blindCaseId), k)
    ensures |ByDimension(Of(cases), l, r, c, k)| == k
  {
    hide ReviewFor, ScoreOf;
    if k > 0 {
      DimensionsAgree(cases, files, l, r, c, k - 1);
      OneDimensionMore(Within(cases, files), l, r, c, k - 1);
      OneDimensionMore(Of(cases), l, r, c, k - 1);
    } else {
      assert ByDimension(Within(cases, files), l, r, c, 0) == {} == ByDimension(Of(cases), l, r, c, 0);
    }
  }

  lemma {:induction false} CasesAgree(cases: seq<PacketCase>, files: seq<Reviews>, l: nat, r: nat, m: nat)
    requires l < r < |files| && m <= |cases|
    ensures |ByCase(Within(cases, files), l, r, m)| == PairAgreements(cases[..m], files[l], files[r])
    ensures |ByCase(Of(cases), l, r, m)| == 6 * Candidates(cases[..m])
  {
    hide ReviewFor, Agreements;
    var p, q := Within(cases, files), Of(cases);
    if m > 0 {
      CasesAgree(cases, files, l, r, m - 1);
      OneCaseMore(p, l, r, m - 1);
      OneCaseMore(q, l, r, m - 1);
      assert DropLast(cases[..m]) == cases[..m - 1] && Last(cases[..m]) == cases[m - 1];
      if cases[m - 1].candidate.Some? {
        DimensionsAgree(cases, files, l, r, m - 1, 6);
      } else {
        assert ByDimension(p, l, r, m - 1, 6) == {} == ByDimension(q, l, r, m - 1, 6);
      }
    } else {
      assert ByCase(p, l, r, 0) == {} == ByCase(q, l, r, 0);
    }
  }

  lemma {:induction false} RightsAgree(cases: seq<PacketCase>, files: seq<Reviews>, l: nat, q: nat)
    requires l < q <= |files|
    ensures |ByRight(Within(cases, files), l, q, |cases|)| == RowAgreements(cases, files, l, q)
    ensures |ByRight(Of(cases), l, q, |cases|)| == 6 * Candidates(cases) * (q - l - 1)
    decreases q
  {
    hide PairAgreements, Candidates, ByRight, ByCase, Within, Of;
    var p, m, k := Within(cases, files), |cases|, 6 * Candidates(cases);
    if q > l + 1 {
      RightsAgree(cases, files, l, q - 1);
      OneRightMore(p, l, q - 1, m);
      OneRightMore(Of(cases), l, q - 1, m);
      CasesAgree(cases, files, l, q - 1, m);
      assert cases[..m] == cases;
      Distribute(k, q - l - 2, 1);
    } else {
      NoRight(p, l, m);
      NoRight(Of(cases), l, m);
      assert k * 0 == 0;
    }
  }

  lemma NoRight(p: Comparison -> bool, l: nat, m: nat)
    ensures ByRight(p, l, l + 1, m) == {}
  {
  }

  lemma NoLeft(p: Comparison -> bool, n: nat, m: nat)
    ensures ByLeft(p, 0, n, m) == {}
  {
  }

  lemma {:induction false} LeftsAgree(cases: seq<PacketCase>, files: seq<Reviews>, l: nat)
    requires l <= |files|
    ensures |ByLeft(Within(cases, files), l, |files|, |cases|)| == AllAgreements(cases, files, l)
    ensures |ByLeft(Of(cases), l, |files|, |cases|)| == 6 * Candidates(cases) * PairsBelow(|files|, l)
  {
    hide RowAgreements, Candidates, ByLeft, ByRight;
    var p, n, m, k := Within(cases, files), |files|, |cases|, 6 * Candidates(cases);
    if l > 0 {
      LeftsAgree(cases, files, l - 1);
      OneLeftMore(p, l - 1, n, m);
      OneLeftMore(Of(cases), l - 1, n, m);
      RightsAgree(cases, files, l - 1, n);
      Distribute(k, PairsBelow(n, l - 1), n - l);
    } else {
      NoLeft(p, n, m);
      NoLeft(Of(cases), n, m);
      assert k * PairsBelow(n, 0) == 0;
    }
  }

  lemma Distribute(k: int, a: int, b: int)
    ensures k * (a + b) == k * a + k * b
  {
  }

  /** The counters of the four loops are the sizes of the two sets. */
  lemma AgreementsCounted(cases: seq<PacketCase>, files: seq<Reviews>)
    ensures AllAgreements(cases, files, |files|) == |WithinOne(cases, files)|
    ensures TotalPairs(cases, |files|) == |Compared(cases, |files|)|
  {
    hide AllAgreements, Candidates, PairsBelow;
    LeftsAgree(cases, files, |files|);
    assert ByLeft(Of(cases), |files|, |files|, |cases|) == Compared(cases, |files|);
    assert ByLeft(Within(cases, files), |files|, |files|, |cases|) == WithinOne(cases, files);
  }

  /** All of it is within one, or nothing is. */
  lemma WithinEnds(cases: seq<PacketCase>, files: seq<Reviews>)
    ensures |WithinOne(cases, files)| == |Compared(cases, |files|)| <==>
            forall x :: x in Compared(cases, |files|) ==> IsWithinOne(cases, files, x)
    ensures |WithinOne(cases, files)| == 0 <==>
            forall x :: x in Compared(cases, |files|) ==> !IsWithinOne(cases, files, x)
  {
    hide Compared, IsWithinOne;
    var all, some := Compared(cases, |files|), WithinOne(cases, files);
    PartOfSet(some, all);
    assert forall x :: x in some <==> x in all && IsWithinOne(cases, files, x);
    if forall x :: x in all ==> IsWithinOne(cases, files, x) {
      assert some == all;
    }
    if x :| x in all && IsWithinOne(cases, files, x) {
      assert x in some;
    } else {
      assert some == {};
    }
  }

  lemma AgreementIsRate(cases: seq<PacketCase>, files: seq<Reviews>)
    requires |files| >= 2 && Candidates(cases) > 0
    ensures |Compared(cases, |files|)| > 0
    ensures ReportOf(cases, files).reviewerAgreementWithinOne ==
            Rate(|WithinOne(cases, files)|, |Compared(cases, |files|)|)
  {
    AgreementsCounted(cases, files);
    TotalPairsClosed(cases, |files|);
    PairsExist(Candidates(cases), |files|);
    hide AllAgreements, Candidates, MeansOf, Unsupported, Missed, CalibrationDifference, Gate, PairsBelow, Compared,
      WithinOne, Rate, TotalPairs;
  }

  /** The agreement rate is the part of the compared score pairs that are within one: 1 if and only if all are, and 0
      if and only if none is, as soon as something is compared. */
  lemma AgreementMeans(cases: seq<PacketCase>, files: seq<Reviews>)
    requires |files| >= 2 && Candidates(cases) > 0
    ensures var rate := ReportOf(cases, files).reviewerAgreementWithinOne;
            && |Compared(cases, |files|)| > 0
            && rate * |Compared(cases, |files|)| as real == |WithinOne(cases, files)| as real
            && (rate == 1.0 <==> forall x :: x in Compared(cases, |files|) ==> IsWithinOne(cases, files, x))
            && (rate == 0.0 <==> forall x :: x in Compared(cases, |files|) ==> !IsWithinOne(cases, files, x))
  {
    hide ReportOf, Compared, WithinOne, IsWithinOne, Candidates, Rate;
    AgreementIsRate(cases, files);
    WithinEnds(cases, files);
    RateMeans(|WithinOne(cases, files)|, |Compared(cases, |files|)|);
  }

  lemma RateMeans(a: nat, b: nat)
    requires b > 0
    ensures Rate(a, b) * b as real == a as real
    ensures Rate(a, b) == 1.0 <==> a == b
    ensures Rate(a, b) == 0.0 <==> a == 0
  {
  }

  lemma PartOfSet<T>(a: set<T>, b: set<T>)
    requires a <= b
    ensures |a| == |b| <==> a == b
    ensures |a| == 0 <==> a == {}
  {
    if a != b {
      var x :| x in b && x !in a;
      SubsetCount(a, b - {x});
    }
  }

  // ---- Assessments

  /** One reviewer's review of one case. */
  datatype Assessment = Assessment(file: nat, which: nat)

  ghost function OfCase(n: nat, c: nat, p: Assessment -> bool): set<Assessment> {
    set f: nat | f < n && p(Assessment(f, c)) :: Assessment(f, c)
  }

  ghost function Assessed(n: nat, m: nat, p: Assessment -> bool): set<Assessment> {
    set f: nat, c: nat | f < n && c < m && p(Assessment(f, c)) :: Assessment(f, c)
  }

  lemma OneFileMore(n: nat, c: nat, p: Assessment -> bool)
    ensures |OfCase(n + 1, c, p)| == |OfCase(n, c, p)| + if p(Assessment(n, c)) then 1 else 0
  {
    var x := Assessment(n, c);
    if p(x) {
      assert OfCase(n + 1, c, p) == OfCase(n, c, p) + {x};
    } else {
      assert OfCase(n + 1, c, p) == OfCase(n, c, p);
    }
  }

  lemma OneCaseAssessed(n: nat, m: nat, p: Assessment -> bool)
    ensures |Assessed(n, m + 1, p)| == |Assessed(n, m, p)| + |OfCase(n, m, p)|
  {
    assert Assessed(n, m + 1, p) == Assessed(n, m, p) + OfCase(n, m, p);
    assert Assessed(n, m, p) !! OfCase(n, m, p);
  }

  /** The review is of a case with, or without, a candidate, and raises the flag. */
  predicate IsFlagged(cases: seq<PacketCase>, files: seq<Reviews>, present: bool, name: string, x: Assessment) {
    && x.file < |files| && x.which < |cases| && cases[x.which].candidate.Some? == present
    && Field(ReviewFor(files[x.file], cases[x.which].blindCaseId), name) == Bool(true)
  }

  function Flagged(cases: seq<PacketCase>, files: seq<Reviews>, present: bool, name: string): Assessment -> bool {
    (x: Assessment) => IsFlagged(cases, files, present, name, x)
  }

  lemma {:induction false} FlagsCounted(cases: seq<PacketCase>, files: seq<Reviews>, name: string, c: nat, n: nat)
    requires c < |cases| && n <= |files|
    ensures |OfCase(n, c, Flagged(cases, files, cases[c].candidate.Some?, name))| ==
            FlagCount(files[..n], cases[c].blindCaseId, name)
  {
    hide ReviewFor, Field;
    var p := Flagged(cases, files, cases[c].candidate.Some?, name);
    if n > 0 {
      FlagsCounted(cases, files, name, c, n - 1);
      OneFileMore(n - 1, c, p);
      assert DropLast(files[..n]) == files[..n - 1];
    } else {
      assert OfCase(0, c, p) == {};
    }
  }

  lemma {:induction false} UnsupportedCounted(cases: seq<PacketCase>, files: seq<Reviews>, m: nat)
    requires m <= |cases|
    ensures |Assessed(|files|, m, Flagged(cases, files, true, "unsupportedCandidate"))| ==
            Unsupported(cases[..m], files)
  {
    hide FlagCount;
    var p, n := Flagged(cases, files, true, "unsupportedCandidate"), |files|;
    if m > 0 {
      UnsupportedCounted(cases, files, m - 1);
      OneCaseAssessed(n, m - 1, p);
      assert DropLast(cases[..m]) == cases[..m - 1];
      FlagsCounted(cases, files, "unsupportedCandidate", m - 1, n);
      assert files[..n] == files;
      if cases[m - 1].candidate.None? {
        assert OfCase(n, m - 1, p) == {};
      }
    } else {
      assert Assessed(n, 0, p) == {};
    }
  }

  lemma {:induction false} MissedCounted(cases: seq<PacketCase>, files: seq<Reviews>, m: nat)
    requires m <= |cases|
    ensures |Assessed(|files|, m, Flagged(cases, files, false, "missedMaterialPattern"))| == Missed(cases[..m], files)
  {
    hide FlagCount;
    var p, n := Flagged(cases, files, false, "missedMaterialPattern"), |files|;
    if m > 0 {
      MissedCounted(cases, files, m - 1);
      OneCaseAssessed(n, m - 1, p);
      assert DropLast(cases[..m]) == cases[..m - 1];
      FlagsCounted(cases, files, "missedMaterialPattern", m - 1, n);
      assert files[..n] == files;
      if cases[m - 1].candidate.Some? {
        assert OfCase(n, m - 1, p) == {};
      }
    } else {
      assert Assessed(n, 0, p) == {};
    }
  }

  // ---- Sums of scores

  /** The review is of a case with a candidate and gives it at least the score `v` in the dimension. */
  predicate IsAtLeast(cases: seq<PacketCase>, files: seq<Reviews>, d: nat, v: int, x: Assessment)
    requires d < 6
  {
    && x.file < |files| && x.which < |cases| && cases[x.which].candidate.Some?
    && Score(cases, files, x.file, x.which, d) >= v
  }

  function ScoredAtLeast(cases: seq<PacketCase>, files: seq<Reviews>, d: nat, v: int): Assessment -> bool
    requires d < 6
  {
    (x: Assessment) => IsAtLeast(cases, files, d, v, x)
  }

  /** A score from 1 to 5 is the number of levels that it reaches, so a sum of scores is the number of assessments that
      reach each level, taken together. */
  ghost function LevelsOfCase(cases: seq<PacketCase>, files: seq<Reviews>, d: nat, n: nat, c: nat): nat
    requires d < 6
  {
    |OfCase(n, c, ScoredAtLeast(cases, files, d, 1))| + |OfCase(n, c, ScoredAtLeast(cases, files, d, 2))|
    + |OfCase(n, c, ScoredAtLeast(cases, files, d, 3))| + |OfCase(n, c, ScoredAtLeast(cases, files, d, 4))|
    + |OfCase(n, c, ScoredAtLeast(cases, files, d, 5))|
  }

  ghost function Levels(cases: seq<PacketCase>, files: seq<Reviews>, d: nat, m: nat): nat
    requires d < 6
  {
    |Assessed(|files|, m, ScoredAtLeast(cases, files, d, 1))|
    + |Assessed(|files|, m, ScoredAtLeast(cases, files, d, 2))|
    + |Assessed(|files|, m, ScoredAtLeast(cases, files, d, 3))|
    + |Assessed(|files|, m, ScoredAtLeast(cases, files, d, 4))|
    + |Assessed(|files|, m, ScoredAtLeast(cases, files, d, 5))|
  }

  lemma {:induction false} CaseScoresCounted(cases: seq<PacketCase>, files: seq<Reviews>, d: nat, c: nat, n: nat)
    requires d < 6 && c < |cases| && n <= |files| && cases[c].candidate.Some? && Complete(cases, files)
    ensures LevelsOfCase(cases, files, d, n, c) == SumOf(CaseScores(files[..n], cases[c].blindCaseId, d))
  {
    hide ReviewFor, ScoreOf, OfCase;
    if n > 0 {
      CaseScoresCounted(cases, files, d, c, n - 1);
      forall v: int {
        OneFileMore(n - 1, c, ScoredAtLeast(cases, files, d, v));
      }
      assert ReviewFits(ReviewFor(files[n - 1], cases[c].blindCaseId), cases[c]);
      assert DropLast(CaseScores(files[..n], cases[c].blindCaseId, d)) ==
             CaseScores(files[..n - 1], cases[c].blindCaseId, d);
    } else {
      forall v: int {
        NoFiles(c, ScoredAtLeast(cases, files, d, v));
      }
    }
  }

  lemma NoFiles(c: nat, p: Assessment -> bool)
    ensures OfCase(0, c, p) == {}
  {
  }

  lemma {:induction false} SumAppend(a: seq<int>, b: seq<int>)
    ensures SumOf(a + b) == SumOf(a) + SumOf(b)
  {
    if b == [] {
      assert a + b == a;
    } else {
      SumAppend(a, DropLast(b));
      assert DropLast(a + b) == a + DropLast(b);
    }
  }

  lemma {:induction false} ScoresCounted(cases: seq<PacketCase>, files: seq<Reviews>, d: nat, m: nat)
    requires d < 6 && m <= |cases| && Complete(cases, files)
    ensures Levels(cases, files, d, m) == SumOf(ScoreValues(cases[..m], files, d))
  {
    hide CaseScores, OfCase, Assessed, IsAtLeast, Complete;
    var n := |files|;
    if m > 0 {
      ScoresCounted(cases, files, d, m - 1);
      assert DropLast(cases[..m]) == cases[..m - 1];
      forall v: int {
        OneCaseAssessed(n, m - 1, ScoredAtLeast(cases, files, d, v));
      }
      if cases[m - 1].candidate.Some? {
        CaseScoresCounted(cases, files, d, m - 1, n);
        assert files[..n] == files;
        SumAppend(ScoreValues(cases[..m - 1], files, d), CaseScores(files, cases[m - 1].blindCaseId, d));
      } else {
        forall v: int {
          NothingScored(cases, files, d, v, m - 1);
        }
        SumAppend(ScoreValues(cases[..m - 1], files, d), []);
        assert LevelsOfCase(cases, files, d, n, m - 1) == 0;
      }
      assert Levels(cases, files, d, m) == Levels(cases, files, d, m - 1) + LevelsOfCase(cases, files, d, n, m - 1);
    } else {
      forall v: int {
        NoCases(n, ScoredAtLeast(cases, files, d, v));
      }
    }
  }

  lemma NothingScored(cases: seq<PacketCase>, files: seq<Reviews>, d: nat, v: int, c: nat)
    requires d < 6 && c < |cases| && cases[c].candidate.None?
    ensures OfCase(|files|, c, ScoredAtLeast(cases, files, d, v)) == {}
  {
  }

  lemma NoCases(n: nat, p: Assessment -> bool)
    ensures Assessed(n, 0, p) == {}
  {
  }

  // ---- The report

  /** The mean grounding of a case, from the levels its scores reach: a fraction of the highest score. */
  ghost function Grounding(cases: seq<PacketCase>, files: seq<Reviews>, c: nat): real
    requires files != []
  {
    LevelsOfCase(cases, files, 0, |files|, c) as real / (5 * |files|) as real
  }

  /** How far the confidence of a candidate is from the mean grounding; nothing for a case without one. */
  ghost function Offset(cases: seq<PacketCase>, files: seq<Reviews>, c: nat): real
    requires files != [] && c < |cases|
  {
    match cases[c].candidate
    case None => 0.0
    case Some(x) =>
      var g := Grounding(cases, files, c);
      if x.confidence >= g then x.confidence - g else g - x.confidence
  }

  ghost function Offsets(cases: seq<PacketCase>, files: seq<Reviews>, m: nat): real
    requires files != [] && m <= |cases|
  {
    if m == 0 then 0.0 else Offsets(cases, files, m - 1) + Offset(cases, files, m - 1)
  }

  lemma GroundingIsMean(cases: seq<PacketCase>, files: seq<Reviews>, c: nat)
    requires files != [] && c < |cases| && cases[c].candidate.Some? && Complete(cases, files)
    ensures MeanGrounding(files, cases[c].blindCaseId) == Grounding(cases, files, c)
  {
    hide CaseScores, LevelsOfCase, Complete;
    CaseScoresCounted(cases, files, 0, c, |files|);
    assert files[..|files|] == files;
    TwiceDivided(SumOf(CaseScores(files, cases[c].blindCaseId, 0)), |files|);
  }

  lemma TwiceDivided(a: int, n: nat)
    requires n > 0
    ensures a as real / n as real / 5.0 == a as real / (5 * n) as real
  {
    var x, y := a as real / n as real / 5.0, a as real / (5 * n) as real;
    assert x * 5.0 * n as real == a as real;
    assert y * (5 * n) as real == a as real;
    assert (5 * n) as real == 5.0 * n as real;
    assert (x - y) * (5.0 * n as real) == 0.0;
  }

  lemma {:induction false} OffsetsAddUp(cases: seq<PacketCase>, files: seq<Reviews>, m: nat)
    requires files != [] && m <= |cases| && Complete(cases, files)
    ensures CalibrationDifference(cases[..m], files) == Offsets(cases, files, m)
  {
    hide MeanGrounding, Grounding, Complete;
    if m > 0 {
      OffsetsAddUp(cases, files, m - 1);
      assert DropLast(cases[..m]) == cases[..m - 1] && Last(cases[..m]) == cases[m - 1];
      if cases[m - 1].candidate.Some? {
        GroundingIsMean(cases, files, m - 1);
      }
    }
  }

  /** What the figures of a report say about the scores and flags of the reviewers. */
  ghost predicate Explains(report: Report, cases: seq<PacketCase>, files: seq<Reviews>)
    requires files != []
  {
    var n, k, m := |files|, Candidates(cases), |cases|;
    && report.reviewers == n && report.cases == m && |report.means| == 6
    && report.unsupportedCandidateRate * (k * n) as real ==
       |Assessed(n, m, Flagged(cases, files, true, "unsupportedCandidate"))| as real
    && report.missedMaterialPatternRate * ((m - k) * n) as real ==
       |Assessed(n, m, Flagged(cases, files, false, "missedMaterialPattern"))| as real
    && (k > 0 ==> forall d :: 0 <= d < 6 ==>
                                report.means[d].Some?
                                && report.means[d].value * (k * n) as real == Levels(cases, files, d, m) as real)
    && report.confidenceCalibrationMae * k as real == Offsets(cases, files, m)
    && (report.provisionalGate <==>
        && (k > 0 && (forall d :: 0 <= d < 6 ==> report.means[d].Some?))
        && report.means[0].value >= 4.0 && report.means[2].value >= 3.5
        && report.means[3].value >= 4.0 && report.means[4].value >= 3.5
        && report.unsupportedCandidateRate <= 0.05 && report.missedMaterialPatternRate <= 0.1
        && report.confidenceCalibrationMae <= 0.2 && report.reviewerAgreementWithinOne >= 0.75)
  }

  lemma QuotientTimes(x: real, k: nat)
    requires k > 0
    ensures x / k as real * k as real == x
  {
  }

  lemma RateTimes(a: nat, b: nat)
    requires a <= b
    ensures Rate(a, b) * b as real == a as real
  {
  }

  lemma MeansExplained(cases: seq<PacketCase>, files: seq<Reviews>, d: nat)
    requires files != [] && d < 6 && Candidates(cases) > 0 && Complete(cases, files)
    ensures MeansOf(cases, files)[d].Some?
    ensures MeansOf(cases, files)[d].value * (Candidates(cases) * |files|) as real ==
            Levels(cases, files, d, |cases|) as real
  {
    hide Complete, ScoreValues, Candidates, SumOf, InScale, Levels;
    ScoresInScale(cases, files, d);
    Positive(Candidates(cases), |files|);
    ScoresCounted(cases, files, d, |cases|);
    assert cases[..|cases|] == cases;
  }

  /** On valid files: the two flag rates are parts of the assessments with and without a candidate, a mean is the total
      of the scores over the assessments, the calibration error is the mean distance of the confidences from the
      reviewers' grounding, and the gate asks for high means, few flags, small offsets and agreement. */
  lemma FiguresExplained(cases: seq<PacketCase>, scores: seq<Value>, isDate: string -> bool)
    requires Distinct(CaseIds(cases)) && FilesOk(cases, scores, isDate)
    ensures var files := Map(scores, ReviewsIn); files != [] && Explains(ReportOf(cases, files), cases, files)
  {
    hide Distinct, CaseIds, FilesOk, Complete, Levels, Assessed, Offsets, Unsupported, Missed, AllAgreements,
      TotalPairs, Candidates, Rate, CalibrationDifference, Mean, ScoreValues, Flagged;
    var files := Map(scores, ReviewsIn);
    EnoughFiles(cases, scores, isDate);
    FilesAreComplete(cases, scores, isDate);
    assert cases[..|cases|] == cases;
    UnsupportedCounted(cases, files, |cases|);
    MissedCounted(cases, files, |cases|);
    CountsBounded(cases, files);
    RateTimes(Unsupported(cases, files), Candidates(cases) * |files|);
    RateTimes(Missed(cases, files), (|cases| - Candidates(cases)) * |files|);
    OffsetsAddUp(cases, files, |cases|);
    NothingOff(cases, files);
    MeansInScale(cases, files);
    if Candidates(cases) > 0 {
      QuotientTimes(CalibrationDifference(cases, files), Candidates(cases));
    }
    forall d | 0 <= d < 6
      ensures Candidates(cases) > 0 ==>
                MeansOf(cases, files)[d].Some?
                && MeansOf(cases, files)[d].value * (Candidates(cases) * |files|) as real ==
                   Levels(cases, files, d, |cases|) as real
    {
      if Candidates(cases) > 0 {
        MeansExplained(cases, files, d);
      }
    }
  }

  /** Without candidates nothing is off. */
  lemma {:induction false} NothingOff(cases: seq<PacketCase>, files: seq<Reviews>)
    requires files != []
    ensures Candidates(cases) == 0 ==> CalibrationDifference(cases, files) == 0.0
  {
    hide MeanGrounding;
    if cases != [] {
      NothingOff(DropLast(cases), files);
    }
  }
}
