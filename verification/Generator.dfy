/** `generateScaleCorpus`: a corpus from its options and a seed. */
module Generator {
  import opened Prelude
  import opened Corpus
  import opened Text
  import opened Updates
  import Lcg

  const CLIENT_WORDS: seq<string> :=
    ["Aster", "Beacon", "Cedar", "Delta", "Elm", "Fjord", "Grove", "Harbour", "Ion", "Juniper",
     "Kite", "Lumen", "Morrow", "Nimbus", "Orchid", "Pioneer", "Quartz", "Rook", "Summit", "Tidal"]
  const CLIENT_SUFFIXES: seq<string> := ["Bank", "Health", "Energy", "Retail", "Mobility"]
  const PROJECT_WORDS: seq<string> := ["Onboarding", "Renewal", "Migration", "Discovery"]
  const ISSUES: seq<string> :=
    ["identity verification delay", "unclear eligibility guidance", "handoff between mobile and branch channels",
     "duplicate document requests", "accessibility failures in the application form", "slow manual compliance review",
     "pricing language that creates uncertainty", "account recovery loops"]

  const DAY_MS: int := 86_400_000
  /** `Date.UTC(2025, 0, 1)` */
  const EPOCH_2025: int := 1_735_689_600_000

  datatype CorpusOptions = CorpusOptions(
    recordCount: int, clientCount: int, projectsPerClient: int, questionProjectCount: int, seed: int)

  datatype CorpusError = BadRecordCount | BadClientCount | BadProjectsPerClient | NoLiveRecord(project: Id)

  predicate ValidOptions(o: CorpusOptions) {
    o.recordCount >= 100 && o.clientCount >= 2 && o.projectsPerClient >= 1
  }

  function ProjectCount(o: CorpusOptions): (r: nat)
    requires ValidOptions(o)
    ensures r >= 2
  {
    assert o.clientCount * o.projectsPerClient >= o.clientCount * 1;
    o.clientCount * o.projectsPerClient
  }

  // ---- Names and references

  function ClientWord(index: nat): string { CLIENT_WORDS[index % 20] }
  function ClientSuffix(index: nat): string { CLIENT_SUFFIXES[index / 20 % 5] }
  function ProjectWord(ordinal: nat): string { PROJECT_WORDS[ordinal % 4] }

  function ClientName(index: nat): string { ClientWord(index) + " " + ClientSuffix(index) }
  function ProjectName(clientIndex: nat, ordinal: nat): string { ClientName(clientIndex) + " " + ProjectWord(ordinal) }

  function WithoutSpaces(s: string): string {
    Filter(s, (c: char) => c != ' ')
  }

  function SourceReference(system: SourceSystem, name: string, index: nat, ambiguous: bool): string {
    if ambiguous then "shared-" + Decimal(index % 7)
    else
      var slug := Normalize(name, '-');
      match system
      case Crm => "account-" + Decimal(10_000 + index)
      case Documents => "/clients/" + slug
      case Messages => "channel-" + slug
      case Meetings => WithoutSpaces(name) + "-" + Decimal(index)
      case Research => slug
  }

  // ---- Versions

  function SourceLanguage(system: SourceSystem): string {
    match system
    case Research => "The moderated study observed"
    case Meetings => "The delivery meeting recorded"
    case Crm => "The account team reported"
    case Documents => "The working document states"
    case Messages => "The project channel discussed"
  }

  function StanceOf(version: nat, changedStance: bool): Stance {
    if changedStance && version > 1 then Contradicts else Supports
  }

  function Conclusion(stance: Stance): string {
    match stance
    case Supports => "contributing to abandonment."
    case Contradicts => "not a primary cause; the earlier claim is contradicted."
  }

  function Revision(version: nat): string {
    if version == 1 then "This was the initial interpretation."
    else "Revision " + Decimal(version) + " supersedes the earlier interpretation after additional evidence."
  }

  function Section(number: nat, clientName: string, projectName: string): string {
    "Section " + Decimal(number) + " " + "preserves interview, operational and delivery context for later comparison. "
    + "The source uses inconsistent terminology while still referring to " + clientName + " and " + projectName + "."
  }

  /** `sections.join('\n\n')` for the sections 1 to `count`. */
  function Sections(count: nat, clientName: string, projectName: string): string {
    if count == 0 then ""
    else if count == 1 then Section(1, clientName, projectName)
    else Sections(count - 1, clientName, projectName) + "\n\n" + Section(count, clientName, projectName)
  }

  /** The part of a body that depends on neither version nor stance. */
  function BodyTail(index: nat, clientName: string, projectName: string, duplicateMarker: Option<string>): string {
    " Client: " + clientName + ". Project: " + projectName + "."
    + (match duplicateMarker case None => "" case Some(m) => " Shared duplicate marker: " + m + ".")
    + (if index % 31 == 0 then "\n\n" + Sections(18, clientName, projectName) else "")
  }

  function BodyHead(system: SourceSystem, issue: string): string {
    SourceLanguage(system) + " that " + issue + " is "
  }

  function Body(system: SourceSystem, issue: string, version: nat, stance: Stance, tail: string): string {
    BodyHead(system, issue) + (Conclusion(stance) + " " + Revision(version)) + tail
  }

  function BuildVersion(index: nat, version: nat, system: SourceSystem, clientName: string, projectName: string,
                        issue: string, duplicateMarker: Option<string>, changedStance: bool): Version {
    var stance := StanceOf(version, changedStance);
    var body := Body(system, issue, version, stance, BodyTail(index, clientName, projectName, duplicateMarker));
    Version(version, projectName + ": " + issue + " (v" + Decimal(version) + ")", body,
            EPOCH_2025 + (index * 3 + version * 17) % 600 * DAY_MS, stance, ContentHash(body))
  }

  // ---- Records

  function VersionCountAt(index: nat): nat {
    if index % 19 == 0 then 3 else if index % 7 == 0 then 2 else 1
  }

  function DuplicateMarkerAt(index: nat): Option<string> {
    if index >= 11 && index % 11 == 0 then Some("duplicate-group-" + Decimal(index / 11)) else None
  }

  /** Which issue the `index`-th record draws: `Math.floor(random() * ISSUES.length)`. */
  function IssueAt(seed: int, index: nat): (r: nat)
    ensures r < 8
  {
    Lcg.StateAfter(seed, index + 1) / 0x2000_0000
  }

  function SystemAt(projectIndex: nat, cycle: nat): SourceSystem { SOURCE_SYSTEMS[(projectIndex + cycle) % 5] }
  function VisibilityAt(projectIndex: nat, cycle: nat): Visibility { VISIBILITIES[(projectIndex + cycle) % 4] }

  function ProjectIndexAt(o: CorpusOptions, index: nat): nat
    requires ValidOptions(o)
  {
    index % ProjectCount(o)
  }

  function CycleAt(o: CorpusOptions, index: nat): nat
    requires ValidOptions(o)
  {
    index / ProjectCount(o)
  }

  function ClientIndexAt(o: CorpusOptions, index: nat): nat
    requires ValidOptions(o)
  {
    ProjectIndexAt(o, index) / o.projectsPerClient
  }

  function OrdinalAt(o: CorpusOptions, index: nat): nat
    requires ValidOptions(o)
  {
    ProjectIndexAt(o, index) % o.projectsPerClient
  }

  function DuplicateAt(seed: int, index: nat): Option<Id> {
    if index >= 11 && index % 11 == 0 then Some(RecordId(seed, index - 11)) else None
  }

  /** The object the record loop pushes, from the values it has computed. */
  function MakeRecord(seed: int, index: nat, projectIndex: nat, cycle: nat, clientIndex: nat, ordinal: nat,
                      issue: string, duplicateOf: Option<Id>): Record {
    var system := SystemAt(projectIndex, cycle);
    var clientName := ClientName(clientIndex);
    var projectName := ProjectName(clientIndex, ordinal);
    var ambiguous := index % 37 == 0;
    Record(RecordId(seed, index), system, External(system, seed, index),
           ClientId(clientName), clientName, ProjectId(projectName), projectName,
           SourceReference(system, clientName, clientIndex, ambiguous),
           SourceReference(system, projectName, projectIndex, ambiguous),
           VisibilityAt(projectIndex, cycle),
           seq(VersionCountAt(index), v requires 0 <= v < VersionCountAt(index) =>
             BuildVersion(index, v + 1, system, clientName, projectName, issue, DuplicateMarkerAt(index),
                          index % 23 == 0)),
           duplicateOf, index % 41 == 0, ambiguous)
  }

  function RecordAt(o: CorpusOptions, index: nat): Record
    requires ValidOptions(o)
  {
    MakeRecord(o.seed, index, ProjectIndexAt(o, index), CycleAt(o, index), ClientIndexAt(o, index), OrdinalAt(o, index),
               ISSUES[IssueAt(o.seed, index)], DuplicateAt(o.seed, index))
  }

  function RecordsOf(o: CorpusOptions, n: nat): seq<Record>
    requires ValidOptions(o)
  {
    seq(n, i requires 0 <= i < n => RecordAt(o, i))
  }

  // ---- Questions

  /** `list.slice(0, end)`: a negative end counts from the back. */
  function SliceTo<T>(s: seq<T>, end: int): seq<T> {
    if end >= |s| then s else if end >= 0 then s[..end] else if |s| + end >= 0 then s[..|s| + end] else []
  }

  function SelectedProjects(o: CorpusOptions, rs: seq<Record>): seq<Id>
    requires ValidOptions(o)
  {
    SliceTo(Unique(Map(rs, ProjectOf)), Min(o.questionProjectCount, ProjectCount(o)))
  }

  predicate HasLiveRecord(rs: seq<Record>, project: Id) {
    ProjectRecords(rs, project) != []
  }

  function ExactQuestion(rs: seq<Record>, project: Id, actor: Actor): Question
    requires HasLiveRecord(rs, project)
  {
    var name := ProjectRecords(rs, project)[0].canonicalProjectName;
    Question(QuestionId(project, actor, ExactName, ""), actor, ExactName,
             "What is preventing customers from completing " + name + "?", name, project,
             EvidenceIds(rs, project, actor, true), EvidenceIds(rs, project, actor, false))
  }

  function ProjectQuestions(rs: seq<Record>, project: Id): seq<Question>
    requires HasLiveRecord(rs, project)
  {
    seq(3, i requires 0 <= i < 3 => ExactQuestion(rs, project, ACTORS[i]))
  }

  function ExactQuestions(rs: seq<Record>, projects: seq<Id>): seq<Question>
    requires forall i :: 0 <= i < |projects| ==> HasLiveRecord(rs, projects[i])
  {
    if projects == [] then []
    else ExactQuestions(rs, DropLast(projects)) + ProjectQuestions(rs, Last(projects))
  }

  /** No selected project is left without a live record, so `projectRecords[0]!` is always there. */
  predicate ProjectsAreLive(o: CorpusOptions)
    requires ValidOptions(o)
  {
    var rs := RecordsOf(o, o.recordCount);
    forall i :: 0 <= i < |SelectedProjects(o, rs)| ==> HasLiveRecord(rs, SelectedProjects(o, rs)[i])
  }

  function CorpusOf(o: CorpusOptions): ScaleCorpus
    requires ValidOptions(o) && ProjectsAreLive(o)
  {
    var rs := RecordsOf(o, o.recordCount);
    ScaleCorpus(o.seed, rs, ExactQuestions(rs, SelectedProjects(o, rs)))
  }

  lemma RecordAtId(o: CorpusOptions, i: nat)
    requires ValidOptions(o)
    ensures RecordAt(o, i).id == RecordId(o.seed, i)
  {
  }

  lemma NextRecord(o: CorpusOptions, index: nat, issue: string, duplicateOf: Option<Id>)
    requires ValidOptions(o) && issue == ISSUES[IssueAt(o.seed, index)]
    requires duplicateOf ==
             if index >= 11 && index % 11 == 0 then Some(RecordsOf(o, index)[index - 11].id) else None
    ensures RecordsOf(o, index + 1) ==
            RecordsOf(o, index) + [MakeRecord(o.seed, index, ProjectIndexAt(o, index), CycleAt(o, index),
                                              ClientIndexAt(o, index), OrdinalAt(o, index), issue, duplicateOf)]
  {
    hide MakeRecord, ProjectIndexAt, CycleAt, ClientIndexAt, OrdinalAt, IssueAt;
    if index >= 11 {
      RecordAtId(o, index - 11);
    }
  }

  /** The record loop of `generateScaleCorpus`. */
  method GenerateRecords(o: CorpusOptions) returns (records: seq<Record>)
    requires ValidOptions(o)
    ensures records == RecordsOf(o, o.recordCount)
  {
    hide MakeRecord, ProjectIndexAt, CycleAt, ClientIndexAt, OrdinalAt, RecordAt;
    var random := new Lcg.Random(o.seed);
    records := [];
    var index := 0;
    while index < o.recordCount
      invariant 0 <= index <= o.recordCount
      invariant random.Valid() && random.seed == o.seed && random.calls == index && fresh(random)
      invariant records == RecordsOf(o, index)
    {
      var duplicateOf := if index >= 11 && index % 11 == 0 then Some(records[index - 11].id) else None;
      var number := random.Next();
      Lcg.RandomIndexInRange(random.state, |ISSUES|);
      var issue := ISSUES[(number * |ISSUES| as real).Floor];
      NextRecord(o, index, issue, duplicateOf);
      records := records + [MakeRecord(o.seed, index, ProjectIndexAt(o, index), CycleAt(o, index),
                                       ClientIndexAt(o, index), OrdinalAt(o, index), issue, duplicateOf)];
      index := index + 1;
    }
  }

  /** The questions about the selected projects, or the first one that has no live record. */
  method GenerateQuestions(records: seq<Record>, projects: seq<Id>) returns (r: Result<seq<Question>, CorpusError>)
    ensures r.Success? <==> forall i :: 0 <= i < |projects| ==> HasLiveRecord(records, projects[i])
    ensures r.Success? ==> r.value == ExactQuestions(records, projects)
  {
    var questions: seq<Question> := [];
    var n := 0;
    while n < |projects|
      invariant 0 <= n <= |projects|
      invariant forall i :: 0 <= i < n ==> HasLiveRecord(records, projects[i])
      invariant questions == ExactQuestions(records, projects[..n])
    {
      if ProjectRecords(records, projects[n]) == [] {
        return Failure(NoLiveRecord(projects[n]));
      }
      assert DropLast(projects[..n + 1]) == projects[..n];
      questions := questions + ProjectQuestions(records, projects[n]);
      n := n + 1;
    }
    assert projects[..n] == projects;
    return Success(questions);
  }

  /** `generateScaleCorpus`: an option error, a project without a live record, or the corpus. */
  method GenerateScaleCorpus(o: CorpusOptions) returns (r: Result<ScaleCorpus, CorpusError>)
    ensures r.Success? <==> ValidOptions(o) && ProjectsAreLive(o)
    ensures r.Success? ==> r.value == CorpusOf(o)
  {
    if o.recordCount < 100 {
      return Failure(BadRecordCount);
    }
    if o.clientCount < 2 {
      return Failure(BadClientCount);
    }
    if o.projectsPerClient < 1 {
      return Failure(BadProjectsPerClient);
    }
    var records := GenerateRecords(o);
    var questions :- GenerateQuestions(records, SelectedProjects(o, records));
    return Success(ScaleCorpus(o.seed, records, questions));
  }
}
