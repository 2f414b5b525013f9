/** `validateHypothesisReviewerScores`: what a reviewer's file must be. */
module Reviewer {
  import opened Prelude
  import opened Corpus
  import opened Json
  import opened Text

  datatype Candidate = Candidate(confidence: real)

  /** One case of the blind packet, as far as scoring needs it. */
  datatype PacketCase = PacketCase(blindCaseId: Id, candidate: Option<Candidate>)

  const DIMENSIONS: seq<string> :=
    ["grounding", "novelty", "usefulness", "falsifiability", "contradictionHandling", "actionability"]

  function CaseIds(cases: seq<PacketCase>): seq<Id> {
    Map(cases, (c: PacketCase) => c.blindCaseId)
  }

  /** `packetCaseById.get(id)?.candidate`: the last case with the identifier decides. */
  function CandidatePresent(cases: seq<PacketCase>, id: Id): bool {
    if cases == [] then false
    else if Last(cases).blindCaseId == id then Last(cases).candidate.Some?
    else CandidatePresent(DropLast(cases), id)
  }

  // ---- A valid file

  predicate ReviewerOk(r: Value, isDate: string -> bool) {
    && r.Object?
    && Field(r, "name").Text? && Trim(Field(r, "name").s) != ""
    && Field(r, "reviewedAt").Text? && isDate(Field(r, "reviewedAt").s)
    && Field(r, "independentReview") == Bool(true)
    && Field(r, "didNotSeeExpectedLabels") == Bool(true)
  }

  predicate HeaderOk(scores: Value, isDate: string -> bool) {
    && scores.Object?
    && Field(scores, "schemaVersion") == Number(1.0)
    && ReviewerOk(Field(scores, "reviewer"), isDate)
    && Field(scores, "reviews").Array?
  }

  /** An integer from 1 to 5. */
  predicate IsScore(v: Value) {
    v.Number? && v.n == v.n.Floor as real && 1.0 <= v.n <= 5.0
  }

  predicate DimensionOk(v: Value, present: bool) {
    if present then IsScore(v) else v == Null
  }

  predicate FlagsOk(review: Value, present: bool) {
    && Field(review, "unsupportedCandidate").Bool? && Field(review, "missedMaterialPattern").Bool?
    && (present ==> Field(review, "missedMaterialPattern") == Bool(false))
    && (!present ==> Field(review, "unsupportedCandidate") == Bool(false))
  }

  predicate Identified(review: Value, cases: seq<PacketCase>) {
    review.Object? && Field(review, "blindCaseId").Key? && Field(review, "blindCaseId").id in CaseIds(cases)
  }

  function ReviewId(review: Value): Id
    requires Field(review, "blindCaseId").Key?
  {
    Field(review, "blindCaseId").id
  }

  predicate ReviewOk(review: Value, cases: seq<PacketCase>) {
    && Identified(review, cases)
    && (forall d :: 0 <= d < 6 ==> DimensionOk(Field(review, DIMENSIONS[d]), CandidatePresent(cases, ReviewId(review))))
    && FlagsOk(review, CandidatePresent(cases, ReviewId(review)))
  }

  /** Some review is about the case. */
  ghost predicate Reviewed(reviews: seq<Value>, id: Id)
    requires forall i :: 0 <= i < |reviews| ==> Field(reviews[i], "blindCaseId").Key?
  {
    exists i :: 0 <= i < |reviews| && ReviewId(reviews[i]) == id
  }

  /** Every review is in order and every case of the packet is reviewed exactly once. */
  ghost predicate ReviewsOk(reviews: seq<Value>, cases: seq<PacketCase>) {
    && (forall i :: 0 <= i < |reviews| ==> ReviewOk(reviews[i], cases))
    && (forall i, j :: 0 <= i < j < |reviews| ==> ReviewId(reviews[i]) != ReviewId(reviews[j]))
    && (forall n :: 0 <= n < |cases| ==> Reviewed(reviews, cases[n].blindCaseId))
  }

  ghost predicate ScoresOk(cases: seq<PacketCase>, scores: Value, isDate: string -> bool) {
    HeaderOk(scores, isDate) && ReviewsOk(Field(scores, "reviews").items, cases)
  }

  // ---- The validator

  datatype ScoreError =
    | NotAnObject | BadSchemaVersion | BadReviewer | BadName | BadDate | NotIndependent | SawLabels | NotAnArray
    | ReviewNotAnObject(index: nat) | UnknownOrDuplicated(index: nat) | BadDimension(index: nat, dimension: nat)
    | BadFlag(index: nat) | MissedWithCandidate(index: nat) | UnsupportedWithout(index: nat)
    | BadCaseCount(expected: nat)

  method ValidateReviewer(scores: Value, isDate: string -> bool) returns (errors: seq<ScoreError>)
    requires scores.Object?
    ensures errors == [] && Field(scores, "reviews").Array? <==> HeaderOk(scores, isDate)
  {
    hide Trim;
    errors := [];
    if Field(scores, "schemaVersion") != Number(1.0) { errors := errors + [BadSchemaVersion]; }
    var reviewer := Field(scores, "reviewer");
    if !reviewer.Object? {
      errors := errors + [BadReviewer];
    } else {
      if !Field(reviewer, "name").Text? || Trim(Field(reviewer, "name").s) == "" { errors := errors + [BadName]; }
      if !Field(reviewer, "reviewedAt").Text? || !isDate(Field(reviewer, "reviewedAt").s) {
        errors := errors + [BadDate];
      }
      if Field(reviewer, "independentReview") != Bool(true) { errors := errors + [NotIndependent]; }
      if Field(reviewer, "didNotSeeExpectedLabels") != Bool(true) { errors := errors + [SawLabels]; }
    }
  }

  /** The checks on the scores and flags of one review. */
  method ValidateReview(review: Value, index: nat, present: bool) returns (errors: seq<ScoreError>)
    ensures errors == [] <==>
            (forall d :: 0 <= d < 6 ==> DimensionOk(Field(review, DIMENSIONS[d]), present)) && FlagsOk(review, present)
  {
    hide DimensionOk;
    errors := [];
    for d := 0 to 6
      invariant errors == [] <==> forall e :: 0 <= e < d ==> DimensionOk(Field(review, DIMENSIONS[e]), present)
    {
      if !DimensionOk(Field(review, DIMENSIONS[d]), present) { errors := errors + [BadDimension(index, d)]; }
    }
    if !Field(review, "unsupportedCandidate").Bool? { errors := errors + [BadFlag(index)]; }
    if !Field(review, "missedMaterialPattern").Bool? { errors := errors + [BadFlag(index)]; }
    if present && Field(review, "missedMaterialPattern") != Bool(false) {
      errors := errors + [MissedWithCandidate(index)];
    }
    if !present && Field(review, "unsupportedCandidate") != Bool(false) {
      errors := errors + [UnsupportedWithout(index)];
    }
  }

  ghost predicate PrefixOk(reviews: seq<Value>, cases: seq<PacketCase>, n: nat)
    requires n <= |reviews|
  {
    && (forall i :: 0 <= i < n ==> ReviewOk(reviews[i], cases))
    && (forall i, j :: 0 <= i < j < n ==> ReviewId(reviews[i]) != ReviewId(reviews[j]))
  }

  ghost predicate SeenExactly(reviews: seq<Value>, n: nat, seen: set<Id>)
    requires n <= |reviews| && forall i :: 0 <= i < n ==> Field(reviews[i], "blindCaseId").Key?
  {
    forall k :: k in seen <==> exists i :: 0 <= i < n && ReviewId(reviews[i]) == k
  }

  /** The loop over the reviews. */
  method ValidateReviews(reviews: seq<Value>, cases: seq<PacketCase>) returns (errors: seq<ScoreError>, seen: set<Id>)
    ensures errors == [] <==> PrefixOk(reviews, cases, |reviews|)
    ensures errors == [] ==> forall i :: 0 <= i < |reviews| ==> Field(reviews[i], "blindCaseId").Key?
    ensures errors == [] ==> SeenExactly(reviews, |reviews|, seen)
  {
    hide DimensionOk, FlagsOk, CandidatePresent, CaseIds;
    errors, seen := [], {};
    for index := 0 to |reviews|
      invariant errors == [] <==> PrefixOk(reviews, cases, index)
      invariant errors == [] ==> SeenExactly(reviews, index, seen)
    {
      var review := reviews[index];
      if !review.Object? {
        errors := errors + [ReviewNotAnObject(index)];
        continue;
      }
      var present := false;
      if Field(review, "blindCaseId").Key? {
        var id := Field(review, "blindCaseId").id;
        if id !in CaseIds(cases) || id in seen { errors := errors + [UnknownOrDuplicated(index)]; }
        seen := seen + {id};
        present := CandidatePresent(cases, id);
      } else {
        errors := errors + [UnknownOrDuplicated(index)];
      }
      var found := ValidateReview(review, index, present);
      errors := errors + found;
    }
  }

  // ---- Pigeonhole

  lemma OkHasId(review: Value, cases: seq<PacketCase>)
    requires ReviewOk(review, cases)
    ensures Field(review, "blindCaseId").Key? && ReviewId(review) in Elements(CaseIds(cases))
  {
  }

  /** Known identifiers without repeats, as many as there are cases, are all of them. */
  lemma SeenAreAll(reviews: seq<Value>, cases: seq<PacketCase>, seen: set<Id>)
    requires PrefixOk(reviews, cases, |reviews|)
    requires forall i :: 0 <= i < |reviews| ==> Field(reviews[i], "blindCaseId").Key?
    requires SeenExactly(reviews, |reviews|, seen)
    ensures |seen| == |Elements(CaseIds(cases))| <==> ReviewsOk(reviews, cases)
  {
    hide ReviewOk, CaseIds, ReviewId, Elements;
    var expected := Elements(CaseIds(cases));
    forall k | k in seen
      ensures k in expected
    {
      var i :| 0 <= i < |reviews| && ReviewId(reviews[i]) == k;
      OkHasId(reviews[i], cases);
    }
    if |seen| == |expected| {
      SubsetCount(seen, expected);
      forall n | 0 <= n < |cases|
        ensures Reviewed(reviews, cases[n].blindCaseId)
      {
        CaseIdKnown(cases, n);
        assert cases[n].blindCaseId in seen;
      }
      assert ReviewsOk(reviews, cases);
    }
    if ReviewsOk(reviews, cases) {
      forall k | k in expected
        ensures k in seen
      {
        var n := CaseOfId(cases, k);
        assert Reviewed(reviews, cases[n].blindCaseId);
        var i :| 0 <= i < |reviews| && ReviewId(reviews[i]) == cases[n].blindCaseId;
      }
      assert seen == expected;
    }
  }

  lemma CaseIdKnown(cases: seq<PacketCase>, n: nat)
    requires n < |cases|
    ensures cases[n].blindCaseId in Elements(CaseIds(cases))
  {
    assert CaseIds(cases)[n] == cases[n].blindCaseId;
  }

  lemma CaseOfId(cases: seq<PacketCase>, k: Id) returns (n: nat)
    requires k in Elements(CaseIds(cases))
    ensures n < |cases| && cases[n].blindCaseId == k
  {
    n :| 0 <= n < |CaseIds(cases)| && CaseIds(cases)[n] == k;
  }

  lemma NeedsHeader(scores: Value, isDate: string -> bool)
    ensures HeaderOk(scores, isDate) ==> scores.Object? && Field(scores, "reviews").Array?
  {
  }

  /** `validateHypothesisReviewerScores`: no error exactly when every case is reviewed once, in order. */
  method ValidateScores(cases: seq<PacketCase>, scores: Value, isDate: string -> bool) returns (errors: seq<ScoreError>)
    ensures errors == [] <==> ScoresOk(cases, scores, isDate)
  {
    hide HeaderOk, ReviewOk, ReviewId, CaseIds, Elements, Field, PrefixOk, ReviewsOk;
    NeedsHeader(scores, isDate);
    if !scores.Object? {
      return [NotAnObject];
    }
    errors := ValidateReviewer(scores, isDate);
    if !Field(scores, "reviews").Array? {
      return errors + [NotAnArray];
    }
    var reviews := Field(scores, "reviews").items;
    var found, seen := ValidateReviews(reviews, cases);
    errors := errors + found;
    if |seen| != |Elements(CaseIds(cases))| { errors := errors + [BadCaseCount(|Elements(CaseIds(cases))|)]; }
    if found == [] {
      SeenAreAll(reviews, cases, seen);
    }
    OkIsPrefix(reviews, cases);
  }

  lemma OkIsPrefix(reviews: seq<Value>, cases: seq<PacketCase>)
    ensures ReviewsOk(reviews, cases) ==> PrefixOk(reviews, cases, |reviews|)
  {
  }
}
