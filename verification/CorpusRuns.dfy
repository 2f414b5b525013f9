/** Corpora reached from the generator by any sequence of operations. */
module CorpusRuns {
  import opened Prelude
  import opened Corpus
  import opened Json
  import opened Updates
  import opened Generator
  import opened Names
  import opened Text
  import opened JsMap
  import opened ScaleTables
  import opened Transformers
  import opened HumanQuestions
  import opened Lineage
  import opened Bodies
  import opened Validator
  import opened ScaleRuns
  import opened ScaleState
  import opened ScaleConstraints
  import opened ScaleReachable
  import opened ScaleSchema

  datatype Edit = AddVocabulary | AddHuman(packet: Value) | Update(updateCount: int, deletionEvery: int)

  /** The operation does not refuse. */
  ghost predicate Accepts(c: ScaleCorpus, e: Edit, isDate: string -> bool) {
    match e
    case AddVocabulary => VocabularyFits(c)
    case AddHuman(packet) => Keyed(packet) && PacketOk(c, packet, isDate)
    case Update(n, every) => ValidUpdate(c, n, every)
  }

  ghost function Edited(c: ScaleCorpus, e: Edit, isDate: string -> bool): ScaleCorpus
    requires Accepts(c, e, isDate)
  {
    match e
    case AddVocabulary => WithVocabulary(c)
    case AddHuman(packet) => WithHuman(c, packet)
    case Update(n, every) => UpdatedCorpus(c, n, every)
  }

  ghost predicate EditsFit(c: ScaleCorpus, edits: seq<Edit>, isDate: string -> bool)
    decreases |edits|, 0
  {
    edits == [] || (EditsFit(c, DropLast(edits), isDate)
                    && Accepts(AfterEdits(c, DropLast(edits), isDate), Last(edits), isDate))
  }

  ghost function AfterEdits(c: ScaleCorpus, edits: seq<Edit>, isDate: string -> bool): ScaleCorpus
    requires EditsFit(c, edits, isDate)
    decreases |edits|, 1
  {
    if edits == [] then c else Edited(AfterEdits(c, DropLast(edits), isDate), Last(edits), isDate)
  }

  lemma EditKeepsGrown(o: CorpusOptions, c: ScaleCorpus, e: Edit, isDate: string -> bool)
    requires Grown(o, c) && Accepts(c, e, isDate)
    ensures Grown(o, Edited(c, e, isDate))
  {
    hide Grown, VocabularyFits, PacketOk, ValidUpdate, WithVocabulary, WithHuman, UpdatedCorpus, Keyed;
    match e
    case AddVocabulary => VocabularyKeepsGrown(o, c);
    case AddHuman(packet) => HumanKeepsGrown(o, c, packet);
    case Update(n, every) => UpdateKeepsGrown(o, c, n, every);
  }

  lemma {:induction false} EditsKeepGrown(o: CorpusOptions, c: ScaleCorpus, edits: seq<Edit>, isDate: string -> bool)
    requires Grown(o, c) && EditsFit(c, edits, isDate)
    ensures Grown(o, AfterEdits(c, edits, isDate))
  {
    hide Grown, Accepts, Edited;
    if edits != [] {
      EditsKeepGrown(o, c, DropLast(edits), isDate);
      EditKeepsGrown(o, AfterEdits(c, DropLast(edits), isDate), Last(edits), isDate);
    }
  }

  // ---- The validator accepts every such corpus

  lemma BaseFacts(o: CorpusOptions, i: nat)
    requires ValidOptions(o)
    ensures var r := RecordAt(o, i);
            && r.id == RecordId(o.seed, i) && r.canonicalClientId.ClientId? && r.canonicalProjectId.ProjectId?
            && r.duplicateOf == DuplicateAt(o.seed, i) && Numbered(r)
  {
    hide SourceReference, IssueAt, Body, BodyTail, ClientName, ProjectName, DuplicateMarkerAt, SystemAt, VisibilityAt;
    hide ProjectIndexAt, CycleAt, ClientIndexAt, OrdinalAt, ProjectCount;
    var r := RecordAt(o, i);
    forall v | 0 <= v < |r.versions|
      ensures r.versions[v].version == v + 1
    {
      var made := BuildVersion(i, v + 1, r.sourceSystem, r.canonicalClientName, r.canonicalProjectName,
                               ISSUES[IssueAt(o.seed, i)], DuplicateMarkerAt(i), i % 23 == 0);
      assert r.versions[v] == made && made.version == v + 1;
    }
  }

  lemma GrownRecordOk(o: CorpusOptions, c: ScaleCorpus, i: nat)
    requires Grown(o, c) && i < |c.records|
    ensures RecordOk(c.records[i], Elements(RecordIds(c.records)))
    ensures WellFormedRecord(c.records[i])
  {
    hide QuestionsAnswered, Continues, RecordAt, Elements, DistinctIds, Numbered;
    GrownIds(o, c);
    BaseFacts(o, i);
    var r, base := c.records[i], RecordAt(o, i);
    assert Descends(base, r);
    VersionNumbers(base, r);
    if base.duplicateOf.Some? {
      KnownId(c.records, i - 11);
    }
    NumberedVersions(r);
  }

  lemma NumberedVersions(r: Record)
    requires Numbered(r)
    ensures forall i :: 0 <= i < |r.versions| ==> r.versions[i].version == i + 1
  {
  }

  lemma KnownId(rs: seq<Record>, i: nat)
    requires i < |rs|
    ensures rs[i].id in Elements(RecordIds(rs))
  {
    assert RecordIds(rs)[i] == rs[i].id;
  }

  lemma VersionNumbers(base: Record, r: Record)
    requires Descends(base, r) && Numbered(base)
    ensures Numbered(r)
  {
    forall i | 0 <= i < |r.versions|
      ensures r.versions[i].version == i + 1
    {
      NumberAt(base, r, i);
    }
  }

  lemma {:induction false} NumberAt(base: Record, r: Record, i: nat)
    requires Descends(base, r) && Numbered(base) && i < |r.versions|
    ensures r.versions[i].version == i + 1
  {
    if i >= |base.versions| {
      NumberAt(base, r, i - 1);
      assert Continues(r.versions[i - 1], r.versions[i]);
    } else {
      assert r.versions[i] == base.versions[i];
    }
  }

  lemma AnsweredOk(c: ScaleCorpus, q: Question)
    requires DistinctIds(c.records) && Answered(c.records, q)
    ensures QuestionOk(q, Elements(RecordIds(c.records)))
  {
    hide EvidenceIds, CanRead;
    EvidenceIdsMembers(c.records, q.canonicalProjectId, q.actor, true);
    EvidenceIdsMembers(c.records, q.canonicalProjectId, q.actor, false);
    forall id | id in q.expectedRecordIds + q.forbiddenRecordIds
      ensures id in Elements(RecordIds(c.records))
    {
      var r :| r in c.records && r.id == id;
      var i :| 0 <= i < |c.records| && c.records[i] == r;
      KnownId(c.records, i);
    }
    forall id | id in q.expectedRecordIds
      ensures id !in q.forbiddenRecordIds
    {
      var r :| r in c.records && r.id == id && CanRead(q.actor, r.visibility);
      if id in q.forbiddenRecordIds {
        var s :| s in c.records && s.id == id && !CanRead(q.actor, s.visibility);
        OneRecord(c.records, r, s);
      }
    }
  }

  lemma OneRecord(rs: seq<Record>, r: Record, s: Record)
    requires DistinctIds(rs) && r in rs && s in rs && r.id == s.id
    ensures r == s
  {
    var i :| 0 <= i < |rs| && rs[i] == r;
    var j :| 0 <= j < |rs| && rs[j] == s;
  }

  lemma PlacesGiveIds(c: ScaleCorpus)
    requires QuestionsAnswered(c)
    ensures Distinct(QuestionIds(c.questions))
  {
    hide EvidenceIds, FirstOf;
    var ids := QuestionIds(c.questions);
    forall i, j | 0 <= i < j < |ids|
      ensures ids[i] != ids[j]
    {
      assert !SamePlace(c.questions[i], c.questions[j]);
      assert c.questions[i] in c.questions && c.questions[j] in c.questions;
    }
  }

  lemma GrownValidates(o: CorpusOptions, c: ScaleCorpus)
    requires Grown(o, c)
    ensures Validates(c) && WellFormed(c.records)
  {
    hide RecordsDescend, RecordOk, QuestionOk, Answered, DistinctPlaces, WellFormedRecord, Elements;
    GrownIds(o, c);
    PlacesGiveIds(c);
    DistinctRecordIds(c.records);
    forall i | 0 <= i < |c.records|
      ensures RecordOk(c.records[i], Elements(RecordIds(c.records))) && WellFormedRecord(c.records[i])
    {
      GrownRecordOk(o, c, i);
    }
    forall q | q in c.questions
      ensures QuestionOk(q, Elements(RecordIds(c.records)))
    {
      AnsweredOk(c, q);
    }
  }

  lemma DistinctRecordIds(rs: seq<Record>)
    requires DistinctIds(rs)
    ensures Distinct(RecordIds(rs))
  {
  }

  /** The generator meets the validator: whatever sequence of accepted question adders and updates follows, the corpus
      validates, is fit to be loaded, and never makes the vocabulary adder refuse. */
  lemma EveryCorpusValidates(o: CorpusOptions, edits: seq<Edit>, isDate: string -> bool)
    requires ValidOptions(o) && ProjectsAreLive(o) && EditsFit(CorpusOf(o), edits, isDate)
    ensures var c := AfterEdits(CorpusOf(o), edits, isDate);
            Validates(c) && WellFormed(c.records) && VocabularyFits(c) && ProjectsHaveRecords(c)
  {
    hide Grown, Validates, WellFormed, VocabularyFits, ProjectsHaveRecords, CorpusOf, ProjectsAreLive;
    GeneratedIsGrown(o);
    EditsKeepGrown(o, CorpusOf(o), edits, isDate);
    GrownValidates(o, AfterEdits(CorpusOf(o), edits, isDate));
    VocabularyAlwaysFits(o, AfterEdits(CorpusOf(o), edits, isDate));
  }

  // ---- The database of such a corpus

  lemma {:induction false} RunKeepsGrown(o: CorpusOptions, c: ScaleCorpus, steps: seq<UpdateStep>)
    requires Grown(o, c) && RunFits(c, steps)
    ensures Grown(o, FinalCorpus(c, steps))
    decreases |steps|
  {
    hide Grown, UpdatedCorpus, ValidUpdate;
    if steps != [] {
      UpdateKeepsGrown(o, c, steps[0].updateCount, steps[0].deletionEvery);
      RunKeepsGrown(o, UpdatedCorpus(c, steps[0].updateCount, steps[0].deletionEvery), steps[1..]);
    }
  }

  /** A client is identified by its name, and client names are titles, which normalise differently. */
  lemma GrownClient(o: CorpusOptions, c: ScaleCorpus, p: (Id, string))
    requires Grown(o, c) && p in Map(c.records, ClientPair)
    ensures p.0 == ClientId(p.1) && TitleName(p.1)
  {
    hide RecordAt, QuestionsAnswered, Continues, ClientName, TitleName;
    var i :| 0 <= i < |c.records| && Map(c.records, ClientPair)[i] == p;
    assert Descends(RecordAt(o, i), c.records[i]);
    BaseClient(o, i);
    ClientNameIsTitle(ClientIndexAt(o, i));
  }

  lemma BaseClient(o: CorpusOptions, i: nat)
    requires ValidOptions(o)
    ensures var name := ClientName(ClientIndexAt(o, i));
            RecordAt(o, i).canonicalClientName == name && RecordAt(o, i).canonicalClientId == ClientId(name)
  {
    hide SourceReference, BuildVersion, ProjectName, ClientName, IssueAt, DuplicateAt, OrdinalAt, VisibilityAt,
      SystemAt, ProjectIndexAt, CycleAt, ClientIndexAt;
  }

  lemma GrownAliases(o: CorpusOptions, c: ScaleCorpus)
    requires Grown(o, c)
    ensures AliasesDiffer(c.records)
  {
    hide Grown, Normalize, TitleName, FromPairs;
    var m := ClientMap(c.records);
    forall i, j | 0 <= i < j < |m|
      ensures Normalize(m[i].1, ' ') != Normalize(m[j].1, ' ')
    {
      ClientsDiffer(c.records, i, j);
      PairAt(c.records, i);
      PairAt(c.records, j);
      GrownClient(o, c, m[i]);
      GrownClient(o, c, m[j]);
      if Normalize(m[i].1, ' ') == Normalize(m[j].1, ' ') {
        NormalizeInjective(m[i].1, m[j].1, ' ');
      }
    }
  }

  lemma PairAt(rs: seq<Record>, i: nat)
    requires i < |ClientMap(rs)|
    ensures ClientMap(rs)[i] in Map(rs, ClientPair)
  {
    hide FromPairs, Map;
    var pairs, m := Map(rs, ClientPair), ClientMap(rs);
    FromPairsDistinct(pairs);
    GetAt(m, i);
    GetFromPairs(pairs, m[i].0);
  }

  /** The records of a corpus grown from a generated one can be told apart. */
  lemma GrownIsStorable(o: CorpusOptions, c: ScaleCorpus)
    requires Grown(o, c)
    ensures Storable(c.records)
  {
    hide Grown, DistinctHashes, AliasesDiffer;
    GrownAliases(o, c);
    forall i | 0 <= i < |c.records|
      ensures DistinctHashes(c.records[i])
    {
      VersionsDiffer(o, c, i);
      HashesDiffer(c.records[i]);
    }
    forall i, j | 0 <= i < j < |c.records|
      ensures !SameExternal(c.records[i], c.records[j])
    {
      Bodies.ExternalsDiffer(o, c, i, j);
    }
  }

  /** Loading a generated corpus and applying any run of its batches violates no key of the schema: `RunBenchmark`
      succeeds whenever no batch is refused. */
  lemma SchemaAlwaysHolds(o: CorpusOptions, c: ScaleCorpus, steps: seq<UpdateStep>)
    requires Grown(o, c) && RunFits(c, steps)
    ensures RunStorable(c, steps) && SchemaHolds(Reached(c, steps))
  {
    hide Grown, Validates, WellFormed, Reached, ReachedEntries, Tracks, FinalCorpus, SchemaHolds, Storable, Anchored;
    GrownValidates(o, c);
    ReachedTracks(c, steps);
    RunKeepsGrown(o, c, steps);
    GrownIsStorable(o, FinalCorpus(c, steps));
    SchemaHoldsExactly(Reached(c, steps), ReachedEntries(c, steps), FinalCorpus(c, steps).records);
  }

  /** In particular no two versions of one source object ever have the same content hash. */
  lemma SourceVersionsStayUnique(o: CorpusOptions, c: ScaleCorpus, steps: seq<UpdateStep>)
    requires Grown(o, c) && RunFits(c, steps)
    ensures VersionsAreUnique(Reached(c, steps).sourceVersions)
  {
    hide Grown, Validates, WellFormed, Reached, ReachedEntries, Tracks, FinalCorpus, WellFormedEntries, EntriesOf,
      VersionsAreUnique, DistinctHashes, Storable, Anchored;
    var db, m, rs := Reached(c, steps), ReachedEntries(c, steps), FinalCorpus(c, steps).records;
    GrownValidates(o, c);
    ReachedTracks(c, steps);
    RunKeepsGrown(o, c, steps);
    GrownIsStorable(o, FinalCorpus(c, steps));
    TracksEntries(db, m, rs);
    EntryHashes(m, rs);
    VersionsAlwaysUnique(db, m, rs);
  }

  lemma HashesDiffer(r: Record)
    requires BodiesDiffer(r.versions)
    ensures DistinctHashes(r)
  {
  }
}
