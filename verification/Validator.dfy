/** `validateScaleCorpus`: its errors, and what a corpus without errors is. */
module Validator {
  import opened Prelude
  import opened Corpus

  datatype ValidationError =
    | DuplicateRecordIds | DuplicateQuestionIds
    | NoVersions(record: Id) | UnknownDuplicate(record: Id) | VersionGap(record: Id)
    | ExpectedAndForbidden(question: Id) | UnknownRecord(question: Id)

  function QuestionIds(qs: seq<Question>): seq<Id> {
    Map(qs, (q: Question) => q.id)
  }

  predicate Numbered(r: Record) {
    forall i :: 0 <= i < |r.versions| ==> r.versions[i].version == i + 1
  }

  predicate RecordOk(r: Record, ids: set<Id>) {
    r.versions != [] && Numbered(r) && (r.duplicateOf.Some? ==> r.duplicateOf.value in ids)
  }

  predicate QuestionOk(q: Question, ids: set<Id>) {
    && (forall id :: id in q.expectedRecordIds ==> id !in q.forbiddenRecordIds)
    && (forall id :: id in q.expectedRecordIds + q.forbiddenRecordIds ==> id in ids)
  }

  /** Distinct identifiers, gapless versions, known duplicates, and questions whose answers are known records
      that are never both expected and forbidden. */
  ghost predicate Validates(c: ScaleCorpus) {
    && Distinct(RecordIds(c.records)) && Distinct(QuestionIds(c.questions))
    && (forall r :: r in c.records ==> RecordOk(r, Elements(RecordIds(c.records))))
    && (forall q :: q in c.questions ==> QuestionOk(q, Elements(RecordIds(c.records))))
  }

  method ValidateRecords(records: seq<Record>, ids: set<Id>) returns (errors: seq<ValidationError>)
    ensures errors == [] <==> forall r :: r in records ==> RecordOk(r, ids)
  {
    hide Numbered;
    errors := [];
    for i := 0 to |records|
      invariant errors == [] <==> forall j :: 0 <= j < i ==> RecordOk(records[j], ids)
    {
      var record := records[i];
      if record.versions == [] { errors := errors + [NoVersions(record.id)]; }
      if record.duplicateOf.Some? && record.duplicateOf.value !in ids {
        errors := errors + [UnknownDuplicate(record.id)];
      }
      if !Numbered(record) { errors := errors + [VersionGap(record.id)]; }
    }
    if errors != [] {
      var j :| 0 <= j < |records| && !RecordOk(records[j], ids);
      assert records[j] in records;
    }
  }

  method ValidateQuestions(questions: seq<Question>, ids: set<Id>) returns (errors: seq<ValidationError>)
    ensures errors == [] <==> forall q :: q in questions ==> QuestionOk(q, ids)
  {
    errors := [];
    for i := 0 to |questions|
      invariant errors == [] <==> forall j :: 0 <= j < i ==> QuestionOk(questions[j], ids)
    {
      var q := questions[i];
      if exists id :: id in q.expectedRecordIds && id in q.forbiddenRecordIds {
        errors := errors + [ExpectedAndForbidden(q.id)];
      }
      if exists id :: id in q.expectedRecordIds + q.forbiddenRecordIds && id !in ids {
        errors := errors + [UnknownRecord(q.id)];
      }
    }
    if errors != [] {
      var j :| 0 <= j < |questions| && !QuestionOk(questions[j], ids);
      assert questions[j] in questions;
    }
  }

  /** `validateScaleCorpus`: no error exactly for a valid corpus. */
  method ValidateScaleCorpus(c: ScaleCorpus) returns (errors: seq<ValidationError>)
    ensures errors == [] <==> Validates(c)
  {
    hide RecordOk, QuestionOk, Distinct;
    var ids, questionIds := Elements(RecordIds(c.records)), Elements(QuestionIds(c.questions));
    DistinctCount(RecordIds(c.records));
    DistinctCount(QuestionIds(c.questions));
    errors := [];
    if |ids| != |c.records| { errors := errors + [DuplicateRecordIds]; }
    if |questionIds| != |c.questions| { errors := errors + [DuplicateQuestionIds]; }
    var recordErrors := ValidateRecords(c.records, ids);
    var questionErrors := ValidateQuestions(c.questions, ids);
    errors := errors + recordErrors + questionErrors;
  }
}
