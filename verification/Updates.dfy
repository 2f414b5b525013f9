/** Incremental batches: `generateScaleUpdateBatch`. */
module Updates {
  import opened Prelude
  import opened Corpus

  const YEAR_MS: int := 31_536_000_000

  datatype UpdateError = BadUpdateCount(eligible: nat) | BadDeletionEvery

  function NextVersion(r: Record): Version {
    var latest := Latest(r);
    var version := latest.version + 1;
    var digits := Decimal(if version < 0 then 0 else version);
    var body := latest.body + "\n\nIncremental benchmark revision " + digits
                + " confirms the current interpretation for " + r.canonicalProjectName + ".";
    Version(version, r.canonicalProjectName + ": incremental evidence refresh (v" + digits + ")", body,
            latest.updatedAt + YEAR_MS, latest.stance, ContentHash(body))
  }

  /** The record at `index` of a batch: every `deletionEvery`-th is deleted, the others get a new version. */
  function UpdatedRecord(r: Record, index: nat, deletionEvery: nat): Record
    requires deletionEvery > 0
  {
    if index % deletionEvery == 0 then r.(deleted := true)
    else r.(versions := r.versions + [NextVersion(r)])
  }

  function UpdatedRecords(rs: seq<Record>, deletionEvery: nat): seq<Record>
    requires deletionEvery > 0
  {
    seq(|rs|, i requires 0 <= i < |rs| => UpdatedRecord(rs[i], i, deletionEvery))
  }

  function IdOf(r: Record): Id { r.id }

  /** `records.filter(record => record.canonicalProjectId === project && !record.deleted)` */
  function ProjectRecords(rs: seq<Record>, project: Id): seq<Record> {
    Filter(rs, (r: Record) => r.canonicalProjectId == project && !r.deleted)
  }

  /** The ids of the live records of a project that an actor may, or may not, read. */
  function EvidenceIds(rs: seq<Record>, project: Id, actor: Actor, readable: bool): seq<Id> {
    Map(Filter(ProjectRecords(rs, project), (r: Record) => CanRead(actor, r.visibility) == readable), IdOf)
  }

  lemma ProjectRecordsMembers(rs: seq<Record>, project: Id)
    ensures forall r :: r in ProjectRecords(rs, project) <==> r in rs && r.canonicalProjectId == project && !r.deleted
  {
    FilterMembers(rs, (r: Record) => r.canonicalProjectId == project && !r.deleted);
  }

  lemma EvidenceIdsMembers(rs: seq<Record>, project: Id, actor: Actor, readable: bool)
    ensures forall k :: k in EvidenceIds(rs, project, actor, readable) <==>
                        exists r :: r in rs && r.id == k && r.canonicalProjectId == project && !r.deleted
                                    && CanRead(actor, r.visibility) == readable
  {
    ProjectRecordsMembers(rs, project);
    var chosen := Filter(ProjectRecords(rs, project), (r: Record) => CanRead(actor, r.visibility) == readable);
    FilterMembers(ProjectRecords(rs, project), (r: Record) => CanRead(actor, r.visibility) == readable);
    var ids := EvidenceIds(rs, project, actor, readable);
    assert ids == Map(chosen, IdOf);
    forall k
      ensures k in ids <==>
              exists r :: r in rs && r.id == k && r.canonicalProjectId == project && !r.deleted
                          && CanRead(actor, r.visibility) == readable
    {
      if k in ids {
        var i :| 0 <= i < |ids| && ids[i] == k;
        assert chosen[i] in chosen;
      }
      if r :| (r in rs && r.id == k && r.canonicalProjectId == project && !r.deleted
               && CanRead(actor, r.visibility) == readable) {
        assert r in chosen;
        var i :| 0 <= i < |chosen| && chosen[i] == r;
        assert ids[i] == k;
      }
    }
  }

  function RefreshQuestion(rs: seq<Record>, q: Question): Question {
    q.(expectedRecordIds := EvidenceIds(rs, q.canonicalProjectId, q.actor, true),
    forbiddenRecordIds := EvidenceIds(rs, q.canonicalProjectId, q.actor, false))
  }

  function RefreshQuestions(rs: seq<Record>, qs: seq<Question>): seq<Question> {
    Map(qs, (q: Question) => RefreshQuestion(rs, q))
  }

  function Eligible(c: ScaleCorpus): seq<Record> {
    Filter(c.records, IsLive)
  }

  predicate ValidUpdate(c: ScaleCorpus, updateCount: int, deletionEvery: int) {
    1 <= updateCount <= |Eligible(c)| && deletionEvery >= 2
  }

  function BatchRecords(c: ScaleCorpus, updateCount: int, deletionEvery: int): seq<Record>
    requires ValidUpdate(c, updateCount, deletionEvery)
  {
    UpdatedRecords(Eligible(c)[..updateCount], deletionEvery)
  }

  function UpdatedCorpus(c: ScaleCorpus, updateCount: int, deletionEvery: int): ScaleCorpus
    requires ValidUpdate(c, updateCount, deletionEvery)
  {
    var records := Replaced(c.records, BatchRecords(c, updateCount, deletionEvery));
    c.(records := records, questions := RefreshQuestions(records, c.questions))
  }

  /** Positions below `n` that are multiples of `every`. */
  function DeletionCount(n: nat, every: nat): (r: nat)
    requires every > 0
    ensures r <= n
  {
    if n == 0 then 0 else DeletionCount(n - 1, every) + if (n - 1) % every == 0 then 1 else 0
  }

  function BatchFor(c: ScaleCorpus, updateCount: int, deletionEvery: int): UpdateBatch
    requires ValidUpdate(c, updateCount, deletionEvery)
  {
    UpdateBatch(UpdatedCorpus(c, updateCount, deletionEvery), BatchRecords(c, updateCount, deletionEvery),
                updateCount - DeletionCount(updateCount, deletionEvery), DeletionCount(updateCount, deletionEvery))
  }

  /** A batch of `n` records deletes one in `every`, rounded up. */
  lemma {:induction false} DeletionCountIsCeiling(n: nat, every: nat)
    requires every > 0
    ensures DeletionCount(n, every) == (n + every - 1) / every
  {
    if n > 0 {
      DeletionCountIsCeiling(n - 1, every);
      var q, r := (n - 1) / every, (n - 1) % every;
      assert n - 1 == q * every + r;
      assert (q + 1) * every == q * every + every;
      if r == 0 {
        DivideExactly(n - 1 + every - 1, every, q, every - 1);
        DivideExactly(n + every - 1, every, q + 1, 0);
      } else {
        DivideExactly(n - 1 + every - 1, every, q + 1, r - 1);
        DivideExactly(n + every - 1, every, q + 1, r);
      }
    } else {
      DivideExactly(every - 1, every, 0, every - 1);
    }
  }

  lemma DivideExactly(x: int, d: int, q: int, r: int)
    requires d > 0 && x == q * d + r && 0 <= r < d
    ensures x / d == q
  {
    assert (x / d - q) * d == r - x % d;
    MultipleGrows(x / d - q, d);
  }

  lemma MultipleGrows(e: int, d: int)
    requires d > 0
    ensures e >= 1 ==> e * d >= d
    ensures e <= -1 ==> e * d <= -d
  {
    if e >= 1 {
      assert (e - 1) * d >= 0;
    } else if e <= -1 {
      assert (e + 1) * d <= 0;
    }
  }

  /** `generateScaleUpdateBatch` */
  method GenerateScaleUpdateBatch(c: ScaleCorpus, updateCount: int,
                                  deletionEvery: int) returns (r: Result<UpdateBatch, UpdateError>)
    ensures r.Success? <==> ValidUpdate(c, updateCount, deletionEvery)
    ensures r.Success? ==> r.value == BatchFor(c, updateCount, deletionEvery)
    ensures r.Success? ==> r.value.revisions + r.value.deletions == |r.value.records| == updateCount
  {
    var eligible := Eligible(c);
    if updateCount < 1 || updateCount > |eligible| {
      return Failure(BadUpdateCount(|eligible|));
    }
    if deletionEvery < 2 {
      return Failure(BadDeletionEvery);
    }
    var revisions, deletions := 0, 0;
    var records: seq<Record> := [];
    var index := 0;
    while index < updateCount
      invariant 0 <= index <= updateCount
      invariant records == UpdatedRecords(eligible[..index], deletionEvery)
      invariant deletions == DeletionCount(index, deletionEvery) && revisions == index - deletions
    {
      var record := eligible[index];
      if index % deletionEvery == 0 {
        deletions := deletions + 1;
        records := records + [record.(deleted := true)];
      } else {
        revisions := revisions + 1;
        records := records + [record.(versions := record.versions + [NextVersion(record)])];
      }
      index := index + 1;
    }
    var updated := Replaced(c.records, records);
    return Success(UpdateBatch(c.(records := updated, questions := RefreshQuestions(updated, c.questions)), records,
                               revisions, deletions));
  }
}
