/** Hand-written questions: the authoring packet, its validator and `addHumanAuthoredQuestions`. */
module HumanQuestions {
  import opened Prelude
  import opened Corpus
  import opened JsMap
  import opened Json
  import opened Text
  import opened Transformers

  // ---- The projects to write about

  function ProjectsAsked(qs: seq<Question>): seq<Id> {
    Map(qs, (q: Question) => q.canonicalProjectId)
  }

  function ExactProjects(c: ScaleCorpus): set<Id> {
    Elements(ProjectsAsked(Of(c.questions, ExactName)))
  }

  /** The first record of each wanted project, in record order. */
  function FirstIn(rs: seq<Record>, wanted: set<Id>): Entries<Id, Record> {
    if rs == [] then []
    else
      var m := FirstIn(DropLast(rs), wanted);
      var p := Last(rs).canonicalProjectId;
      if p in wanted && Get(m, p).None? then Put(m, p, Last(rs)) else m
  }

  function ProjectRecordsForQuestions(c: ScaleCorpus): Entries<Id, Record> {
    FirstIn(c.records, ExactProjects(c))
  }

  /** `projectRecordsForQuestions` */
  method CollectProjectRecords(c: ScaleCorpus) returns (m: Entries<Id, Record>)
    ensures m == ProjectRecordsForQuestions(c)
  {
    var wanted := ExactProjects(c);
    m := [];
    for i := 0 to |c.records|
      invariant m == FirstIn(c.records[..i], wanted)
    {
      assert DropLast(c.records[..i + 1]) == c.records[..i];
      var record := c.records[i];
      if record.canonicalProjectId in wanted && Get(m, record.canonicalProjectId).None? {
        m := Put(m, record.canonicalProjectId, record);
      }
    }
    assert c.records[..|c.records|] == c.records;
  }

  lemma {:induction false} FirstInIsFirst(rs: seq<Record>, wanted: set<Id>)
    ensures DistinctKeys(FirstIn(rs, wanted))
    ensures forall p :: Get(FirstIn(rs, wanted), p) == if p in wanted then FirstOf(rs, p) else None
  {
    if rs != [] {
      var m, k := FirstIn(DropLast(rs), wanted), Last(rs).canonicalProjectId;
      FirstInIsFirst(DropLast(rs), wanted);
      PutDistinct(m, k, Last(rs));
      forall p
        ensures Get(FirstIn(rs, wanted), p) == if p in wanted then FirstOf(rs, p) else None
      {
        GetPut(m, k, Last(rs), p);
      }
    }
  }

  /** The entries stand in the order of the records. */
  ghost predicate InOrder(rs: seq<Record>, m: Entries<Id, Record>, at: seq<nat>) {
    && |at| == |m|
    && (forall i :: 0 <= i < |at| ==> at[i] < |rs| && m[i] == (rs[at[i]].canonicalProjectId, rs[at[i]]))
    && (forall i, j :: 0 <= i < j < |at| ==> at[i] < at[j])
  }

  lemma {:induction false} FirstInOrder(rs: seq<Record>, wanted: set<Id>) returns (at: seq<nat>)
    ensures InOrder(rs, FirstIn(rs, wanted), at)
  {
    if rs == [] {
      at := [];
    } else {
      var d, last := DropLast(rs), Last(rs);
      var m := FirstIn(d, wanted);
      at := FirstInOrder(d, wanted);
      if last.canonicalProjectId in wanted && Get(m, last.canonicalProjectId).None? {
        PutNew(m, last.canonicalProjectId, last);
        at := at + [|d|];
      }
    }
  }

  // ---- The template

  datatype ScenarioError = NoScenario(projectName: string)

  function ProjectScenario(projectName: string): Option<string> {
    if EndsWith(projectName, " Onboarding") then Some("Customers trying to open a new account.")
    else if EndsWith(projectName, " Renewal") then
      Some("Existing customers deciding whether and how to continue their service.")
    else if EndsWith(projectName, " Migration") then
      Some("Customers moving from an existing service to its replacement platform.")
    else if EndsWith(projectName, " Discovery") then
      Some("Early research into customer needs before a solution is defined.")
    else None
  }

  function Term(r: Record): string { Lower(LastWord(r.canonicalProjectName)) }

  function TemplateEntry(r: Record): Value {
    Object(map[
             "projectKey" := Key(r.canonicalProjectId),
             "clientContext" := Text(r.canonicalClientName),
             "scenario" := Text(match ProjectScenario(r.canonicalProjectName) case Some(s) => s case None => ""),
             "avoidTerms" := Array([Text(Term(r))]),
             "question" := Text("")])
  }

  const INSTRUCTIONS: seq<string> := [
    "Write one natural question for each scenario as a real colleague might ask it.",
    "Do not use any avoidTerms, inspect the benchmark corpus, or view scorer answer sets.",
    "Implicit references and organisation-specific vocabulary are encouraged.",
    "Complete the authorship fields and set independentlyAuthored to true only when accurate."]

  function Instructions(): Value { Array(Map(INSTRUCTIONS, (s: string) => Text(s))) }

  const BLANK_AUTHORSHIP := Object(map["author" := Text(""), "authoredAt" := Text(""),
                                       "independentlyAuthored" := Bool(false)])

  function Template(c: ScaleCorpus): Value {
    Object(map[
             "schemaVersion" := Number(1.0),
             "corpusSeed" := Number(c.seed as real),
             "instructions" := Instructions(),
             "authorship" := BLANK_AUTHORSHIP,
             "questions" := Array(Map(ProjectRecordsForQuestions(c), (e: (Id, Record)) => TemplateEntry(e.1)))])
  }

  /** `createHumanQuestionAuthoringPacket` */
  method CreateAuthoringPacket(c: ScaleCorpus) returns (r: Result<Value, ScenarioError>)
    ensures r.Success? <==>
            forall e :: e in ProjectRecordsForQuestions(c) ==> ProjectScenario(e.1.canonicalProjectName).Some?
    ensures r.Success? ==> r.value == Template(c)
  {
    hide ProjectScenario;
    var records := CollectProjectRecords(c);
    var entries: seq<Value> := [];
    for i := 0 to |records|
      invariant forall j :: 0 <= j < i ==> ProjectScenario(records[j].1.canonicalProjectName).Some?
      invariant entries == Map(records[..i], (e: (Id, Record)) => TemplateEntry(e.1))
    {
      if ProjectScenario(records[i].1.canonicalProjectName).None? {
        assert records[i] in records;
        return Failure(NoScenario(records[i].1.canonicalProjectName));
      }
      entries := entries + [TemplateEntry(records[i].1)];
    }
    assert records[..|records|] == records;
    assert entries == Map(records, (e: (Id, Record)) => TemplateEntry(e.1));
    r := Success(Object(map["schemaVersion" := Number(1.0), "corpusSeed" := Number(c.seed as real),
                            "instructions" := Instructions(), "authorship" := BLANK_AUTHORSHIP,
                            "questions" := Array(entries)]));
  }

  /** What an author sees of one project: which one it is, whose, the scenario, the word to avoid, and an empty place
      for the question. */
  predicate Describes(entry: Value, r: Record) {
    && entry.Object?
    && entry.fields.Keys == {"projectKey", "clientContext", "scenario", "avoidTerms", "question"}
    && entry.fields["projectKey"] == Key(r.canonicalProjectId)
    && entry.fields["clientContext"] == Text(r.canonicalClientName)
    && ProjectScenario(r.canonicalProjectName).Some?
    && entry.fields["scenario"] == Text(ProjectScenario(r.canonicalProjectName).value)
    && entry.fields["avoidTerms"] == Array([Text(Lower(LastWord(r.canonicalProjectName)))])
    && entry.fields["question"] == Text("")
  }

  /** An exact-name question asks about the project. */
  predicate AskedExactly(c: ScaleCorpus, project: Id) {
    exists q :: q in c.questions && q.cohort == ExactName && q.canonicalProjectId == project
  }

  /** The places of the first records of the projects that exact-name questions are about, in order. */
  ghost predicate AskedFirsts(c: ScaleCorpus, at: seq<nat>) {
    && (forall i, j :: 0 <= i < j < |at| ==> at[i] < at[j])
    && (forall i :: 0 <= i < |at| ==> at[i] < |c.records| && AskedExactly(c, c.records[at[i]].canonicalProjectId)
                                      && FirstOf(c.records, c.records[at[i]].canonicalProjectId) ==
                                         Some(c.records[at[i]]))
    && (forall r :: r in c.records && AskedExactly(c, r.canonicalProjectId) ==>
                      exists i :: 0 <= i < |at| && c.records[at[i]].canonicalProjectId == r.canonicalProjectId)
  }

  lemma EntriesAreFirsts(c: ScaleCorpus) returns (at: seq<nat>)
    ensures InOrder(c.records, ProjectRecordsForQuestions(c), at) && AskedFirsts(c, at)
  {
    hide FirstOf, ExactProjects, FirstIn, AskedExactly;
    var m := ProjectRecordsForQuestions(c);
    FirstInIsFirst(c.records, ExactProjects(c));
    at := FirstInOrder(c.records, ExactProjects(c));
    ExactProjectsMembers(c);
    forall i | 0 <= i < |m|
      ensures Get(m, m[i].0) == Some(m[i].1)
    {
      GetAt(m, i);
    }
    forall r | r in c.records && AskedExactly(c, r.canonicalProjectId)
      ensures exists i :: 0 <= i < |at| && c.records[at[i]].canonicalProjectId == r.canonicalProjectId
    {
      FirstExists(c.records, r);
      GetNone(m, r.canonicalProjectId);
    }
  }

  lemma {:induction false} FirstExists(rs: seq<Record>, r: Record)
    requires r in rs
    ensures FirstOf(rs, r.canonicalProjectId).Some?
  {
    if r in DropLast(rs) {
      FirstExists(DropLast(rs), r);
    } else {
      assert rs == DropLast(rs) + [Last(rs)];
    }
  }

  /** The template is blind: it has one entry for every project that an exact-name question is about and that has a
      record, describing its first record, in the order of the records, and nothing about answers; it names no author
      yet, and says so. */
  lemma TemplateSays(c: ScaleCorpus) returns (at: seq<nat>)
    requires forall e :: e in ProjectRecordsForQuestions(c) ==> ProjectScenario(e.1.canonicalProjectName).Some?
    ensures AskedFirsts(c, at)
    ensures var t := Template(c);
            && t.Object? && t.fields.Keys == {"schemaVersion", "corpusSeed", "instructions", "authorship", "questions"}
            && Field(t, "schemaVersion") == Number(1.0) && Field(t, "corpusSeed") == Number(c.seed as real)
            && Field(Field(t, "authorship"), "independentlyAuthored") == Bool(false)
            && Field(t, "questions").Array? && |Field(t, "questions").items| == |at|
            && (forall i :: 0 <= i < |at| ==> Describes(Field(t, "questions").items[i], c.records[at[i]]))
  {
    hide AskedFirsts, Describes, TemplateEntry, Instructions, ProjectRecordsForQuestions;
    var m := ProjectRecordsForQuestions(c);
    at := EntriesAreFirsts(c);
    forall i | 0 <= i < |m|
      ensures Describes(TemplateEntry(m[i].1), m[i].1)
    {
      assert m[i] in m;
      EntryDescribes(m[i].1);
    }
  }

  lemma EntryDescribes(r: Record)
    requires ProjectScenario(r.canonicalProjectName).Some?
    ensures Describes(TemplateEntry(r), r)
  {
    hide ProjectScenario, Lower, LastWord;
  }

  // ---- What a filled-in packet must be

  predicate AuthorshipOk(a: Value, isDate: string -> bool) {
    && a.Object?
    && Field(a, "author").Text? && Trim(Field(a, "author").s) != ""
    && Field(a, "authoredAt").Text? && Field(a, "authoredAt").s != "" && isDate(Field(a, "authoredAt").s)
    && Field(a, "independentlyAuthored") == Bool(true)
  }

  predicate HeaderOk(c: ScaleCorpus, packet: Value, isDate: string -> bool) {
    && packet.Object?
    && Field(packet, "schemaVersion") == Number(1.0)
    && Field(packet, "corpusSeed") == Number(c.seed as real)
    && AuthorshipOk(Field(packet, "authorship"), isDate)
    && Field(packet, "questions").Array?
  }

  function QueryOf(item: Value): string {
    match Field(item, "question")
    case Text(s) => Trim(s)
    case _ => ""
  }

  predicate KeyKnown(item: Value, keys: Entries<Id, Record>) {
    item.Object? && Field(item, "projectKey").Key? && Get(keys, Field(item, "projectKey").id).Some?
  }

  predicate InRange(query: string) {
    12 <= |query| <= 300
  }

  /** The query of an entry avoids the last word of its project's name. */
  predicate TermFree(item: Value, keys: Entries<Id, Record>)
    requires KeyKnown(item, keys)
  {
    !ContainsWord(QueryOf(item), Term(Get(keys, Field(item, "projectKey").id).value))
  }

  predicate EntryOk(item: Value, keys: Entries<Id, Record>) {
    KeyKnown(item, keys) && InRange(QueryOf(item)) && TermFree(item, keys)
  }

  function KeyOf(item: Value): Id
    requires Field(item, "projectKey").Key?
  {
    Field(item, "projectKey").id
  }

  /** Some entry has the key. */
  ghost predicate Mentioned(items: seq<Value>, key: Id)
    requires forall i :: 0 <= i < |items| ==> Field(items[i], "projectKey").Key?
  {
    exists i :: 0 <= i < |items| && KeyOf(items[i]) == key
  }

  /** The entries match the projects one to one, and no two ask the same question. */
  ghost predicate EntriesOk(items: seq<Value>, keys: Entries<Id, Record>) {
    && (forall i :: 0 <= i < |items| ==> EntryOk(items[i], keys))
    && (forall i, j :: 0 <= i < j < |items| ==> KeyOf(items[i]) != KeyOf(items[j]))
    && (forall i, j :: 0 <= i < j < |items| ==> Lower(QueryOf(items[i])) != Lower(QueryOf(items[j])))
    && (forall n :: 0 <= n < |keys| ==> Mentioned(items, keys[n].0))
  }

  ghost predicate PacketOk(c: ScaleCorpus, packet: Value, isDate: string -> bool) {
    HeaderOk(c, packet, isDate) && EntriesOk(Field(packet, "questions").items, ProjectRecordsForQuestions(c))
  }

  // ---- The validator

  datatype PacketError =
    | NotAnObject | BadSchemaVersion | BadCorpusSeed | BadAuthorship | BadAuthor | BadAuthoredAt | NotIndependent
    | NotAnArray
    | EntryNotAnObject(index: nat) | UnknownKey(index: nat) | DuplicateKey(index: nat) | BadLength(index: nat)
    | DuplicateQuery(index: nat) | ProhibitedTerm(index: nat) | MissingKey(key: Id) | BadCount(expected: nat)

  /** The checks on the packet itself. */
  method ValidateHeader(c: ScaleCorpus, packet: Value, isDate: string -> bool) returns (errors: seq<PacketError>)
    requires packet.Object?
    ensures errors == [] && Field(packet, "questions").Array? <==> HeaderOk(c, packet, isDate)
  {
    hide Trim;
    errors := [];
    if Field(packet, "schemaVersion") != Number(1.0) { errors := errors + [BadSchemaVersion]; }
    if Field(packet, "corpusSeed") != Number(c.seed as real) { errors := errors + [BadCorpusSeed]; }
    var authorship := Field(packet, "authorship");
    if !authorship.Object? {
      errors := errors + [BadAuthorship];
    } else {
      if !Field(authorship, "author").Text? || Trim(Field(authorship, "author").s) == "" {
        errors := errors + [BadAuthor];
      }
      if !Field(authorship, "authoredAt").Text? || Field(authorship, "authoredAt").s == ""
         || !isDate(Field(authorship, "authoredAt").s) {
        errors := errors + [BadAuthoredAt];
      }
      if Field(authorship, "independentlyAuthored") != Bool(true) { errors := errors + [NotIndependent]; }
    }
  }

  /** The first `n` entries, taken alone, are in order. */
  ghost predicate PrefixOk(items: seq<Value>, keys: Entries<Id, Record>, n: nat)
    requires n <= |items|
  {
    && (forall i :: 0 <= i < n ==> EntryOk(items[i], keys))
    && (forall i, j :: 0 <= i < j < n ==> KeyOf(items[i]) != KeyOf(items[j]))
    && (forall i, j :: 0 <= i < j < n ==> Lower(QueryOf(items[i])) != Lower(QueryOf(items[j])))
  }

  ghost predicate SeenExactly(items: seq<Value>, n: nat, seenKeys: set<Id>, seenQueries: set<string>)
    requires n <= |items| && forall i :: 0 <= i < n ==> Field(items[i], "projectKey").Key?
  {
    && (forall k :: k in seenKeys <==> exists i :: 0 <= i < n && KeyOf(items[i]) == k)
    && (forall s :: s in seenQueries <==> exists i :: 0 <= i < n && Lower(QueryOf(items[i])) == s)
  }

  /** The loop over the entries. */
  method ValidateEntries(items: seq<Value>, keys: Entries<Id, Record>)
    returns (errors: seq<PacketError>, seenKeys: set<Id>)
    ensures errors == [] <==> PrefixOk(items, keys, |items|)
    ensures errors == [] ==> forall k :: k in seenKeys <==> exists i :: 0 <= i < |items| && KeyOf(items[i]) == k
  {
    hide ContainsWord, Trim, Lower, Get, LastWord, Term, QueryOf;
    errors, seenKeys := [], {};
    var seenQueries: set<string> := {};
    for index := 0 to |items|
      invariant errors == [] <==> PrefixOk(items, keys, index)
      invariant errors == [] ==> SeenExactly(items, index, seenKeys, seenQueries)
    {
      var item := items[index];
      if !item.Object? {
        errors := errors + [EntryNotAnObject(index)];
        continue;
      }
      if !Field(item, "projectKey").Key? || Get(keys, Field(item, "projectKey").id).None? {
        errors := errors + [UnknownKey(index)];
        continue;
      }
      var key := Field(item, "projectKey").id;
      if key in seenKeys { errors := errors + [DuplicateKey(index)]; }
      seenKeys := seenKeys + {key};
      var query := QueryOf(item);
      if |query| < 12 || |query| > 300 {
        errors := errors + [BadLength(index)];
        continue;
      }
      if Lower(query) in seenQueries { errors := errors + [DuplicateQuery(index)]; }
      seenQueries := seenQueries + {Lower(query)};
      if ContainsWord(query, Term(Get(keys, key).value)) { errors := errors + [ProhibitedTerm(index)]; }
    }
  }

  function KeysOf(items: seq<Value>): seq<Id>
    requires forall i :: 0 <= i < |items| ==> Field(items[i], "projectKey").Key?
  {
    seq(|items|, i requires 0 <= i < |items| => KeyOf(items[i]))
  }

  lemma KnownKey(item: Value, keys: Entries<Id, Record>)
    requires KeyKnown(item, keys)
    ensures exists n :: 0 <= n < |keys| && keys[n].0 == KeyOf(item)
  {
    GetNone(keys, KeyOf(item));
  }

  lemma SameElements<T>(a: seq<T>, b: seq<T>)
    requires forall i :: 0 <= i < |a| ==> a[i] in b
    requires forall n :: 0 <= n < |b| ==> b[n] in a
    ensures Elements(a) == Elements(b)
  {
  }

  /** Entries with distinct known keys, one for every project: as many entries as projects. */
  lemma EntriesCounted(items: seq<Value>, keys: Entries<Id, Record>)
    requires DistinctKeys(keys) && EntriesOk(items, keys)
    ensures |items| == |keys|
  {
    hide EntryOk, KeyKnown, Get, KeyOf, Elements;
    forall i | 0 <= i < |items|
      ensures KeyKnown(items[i], keys) && Field(items[i], "projectKey").Key?
    {
      EntryHasKey(items[i], keys);
    }
    var a, b := KeysOf(items), Map(keys, (e: (Id, Record)) => e.0);
    DistinctCount(a);
    DistinctCount(b);
    forall i | 0 <= i < |a|
      ensures a[i] in b
    {
      KnownKey(items[i], keys);
      var n :| 0 <= n < |keys| && keys[n].0 == KeyOf(items[i]);
      assert b[n] == a[i];
    }
    forall n | 0 <= n < |b|
      ensures b[n] in a
    {
      assert Mentioned(items, keys[n].0);
      var i :| 0 <= i < |items| && KeyOf(items[i]) == keys[n].0;
      assert a[i] == b[n];
    }
    SameElements(a, b);
  }

  lemma EntryHasKey(item: Value, keys: Entries<Id, Record>)
    requires EntryOk(item, keys)
    ensures KeyKnown(item, keys) && Field(item, "projectKey").Key?
  {
  }

  lemma PrefixKeys(items: seq<Value>, keys: Entries<Id, Record>, seenKeys: set<Id>)
    requires PrefixOk(items, keys, |items|)
    requires forall k :: k in seenKeys <==> exists i :: 0 <= i < |items| && KeyOf(items[i]) == k
    ensures EntriesOk(items, keys) <==> forall n :: 0 <= n < |keys| ==> keys[n].0 in seenKeys
  {
    hide EntryOk;
    forall i | 0 <= i < |items|
      ensures Field(items[i], "projectKey").Key?
    {
      EntryHasKey(items[i], keys);
    }
    if forall n :: 0 <= n < |keys| ==> keys[n].0 in seenKeys {
      forall n | 0 <= n < |keys|
        ensures Mentioned(items, keys[n].0)
      {
        assert keys[n].0 in seenKeys;
      }
      assert EntriesOk(items, keys);
    }
    if EntriesOk(items, keys) {
      forall n | 0 <= n < |keys|
        ensures keys[n].0 in seenKeys
      {
        var i :| 0 <= i < |items| && KeyOf(items[i]) == keys[n].0;
      }
    }
  }

  lemma NoHeader(c: ScaleCorpus, packet: Value, isDate: string -> bool)
    ensures HeaderOk(c, packet, isDate) ==> packet.Object? && Field(packet, "questions").Array?
  {
  }

  /** `validateHumanQuestionAuthoringPacket`: no error exactly for a packet in order. */
  method ValidateAuthoringPacket(c: ScaleCorpus, packet: Value, isDate: string -> bool)
    returns (errors: seq<PacketError>)
    ensures errors == [] <==> PacketOk(c, packet, isDate)
  {
    hide EntryOk, Get, HeaderOk, KeyOf, DistinctKeys, FirstIn;
    NoHeader(c, packet, isDate);
    if !packet.Object? {
      return [NotAnObject];
    }
    errors := ValidateHeader(c, packet, isDate);
    if !Field(packet, "questions").Array? {
      return errors + [NotAnArray];
    }
    var items := Field(packet, "questions").items;
    var keys := CollectProjectRecords(c);
    var found, seenKeys := ValidateEntries(items, keys);
    ghost var fine := HeaderOk(c, packet, isDate) && found == [];
    errors := errors + found;
    for n := 0 to |keys|
      invariant errors == [] <==> fine && forall m :: 0 <= m < n ==> keys[m].0 in seenKeys
    {
      if keys[n].0 !in seenKeys { errors := errors + [MissingKey(keys[n].0)]; }
    }
    FirstInIsFirst(c.records, ExactProjects(c));
    if found == [] {
      PrefixKeys(items, keys, seenKeys);
    }
    if EntriesOk(items, keys) {
      EntriesCounted(items, keys);
    }
    if |items| != |keys| { errors := errors + [BadCount(|keys|)]; }
  }

  // ---- Adding the questions

  /** The packet's questions are an array of entries that name a project. */
  predicate Keyed(packet: Value) {
    && Field(packet, "questions").Array?
    && forall i :: 0 <= i < |Field(packet, "questions").items| ==>
                     Field(Field(packet, "questions").items[i], "projectKey").Key?
  }

  /** `queryByProject` */
  function QueryByProject(packet: Value): Entries<Id, string>
    requires Keyed(packet)
  {
    FromPairs(QueryPairs(Field(packet, "questions").items))
  }

  function QueryPairs(items: seq<Value>): seq<(Id, string)>
    requires forall i :: 0 <= i < |items| ==> Field(items[i], "projectKey").Key?
  {
    seq(|items|, i requires 0 <= i < |items| => (KeyOf(items[i]), QueryOf(items[i])))
  }

  function HumanQuestion(q: Question, query: string): Question {
    q.(id := QuestionId(q.canonicalProjectId, q.actor, HumanAuthored, query),
    cohort := HumanAuthored, query := query, lexicalQuery := query)
  }

  /** A query that is missing from the map is `undefined`, here as its text. */
  const UNDEFINED := "undefined"

  function HumanReword(queries: Entries<Id, string>): Question -> Question {
    (q: Question) => HumanQuestion(q, match Get(queries, q.canonicalProjectId) case Some(w) => w case None => UNDEFINED)
  }

  function WithHuman(c: ScaleCorpus, packet: Value): ScaleCorpus
    requires Keyed(packet)
  {
    c.(questions := Added(c.questions, HumanAuthored, HumanReword(QueryByProject(packet))))
  }

  /** Every exact-name question is about a project that has a record. */
  ghost predicate ProjectsHaveRecords(c: ScaleCorpus) {
    forall q :: q in c.questions && q.cohort == ExactName ==> FirstOf(c.records, q.canonicalProjectId).Some?
  }

  lemma PacketIsKeyed(c: ScaleCorpus, packet: Value, isDate: string -> bool)
    requires PacketOk(c, packet, isDate)
    ensures Keyed(packet)
  {
    hide EntryOk, AuthorshipOk, ProjectRecordsForQuestions;
    var items := Field(packet, "questions").items;
    forall i | 0 <= i < |items|
      ensures Field(items[i], "projectKey").Key?
    {
      EntryHasKey(items[i], ProjectRecordsForQuestions(c));
    }
  }

  lemma ExactProjectsMembers(c: ScaleCorpus)
    ensures forall p :: p in ExactProjects(c) <==> AskedExactly(c, p)
  {
    FilterMembers(c.questions, (q: Question) => q.cohort == ExactName);
    var exact := Of(c.questions, ExactName);
    var projects := ProjectsAsked(exact);
    forall p
      ensures p in ExactProjects(c) <==> AskedExactly(c, p)
    {
      if p in projects {
        var i :| 0 <= i < |projects| && projects[i] == p;
        assert exact[i] in exact;
      }
      if q :| q in c.questions && q.cohort == ExactName && q.canonicalProjectId == p {
        assert q in exact;
        var i :| 0 <= i < |exact| && exact[i] == q;
        assert projects[i] == p;
      }
    }
  }

  /** With an accepted packet `queryByProject.get(..)!` is defined for an exact-name question if and only if the
      question's project has a record, and then it is the query of the only entry with that project. */
  lemma QueryIsDefined(c: ScaleCorpus, packet: Value, isDate: string -> bool, q: Question)
    requires PacketOk(c, packet, isDate) && Keyed(packet)
    requires q in c.questions && q.cohort == ExactName
    ensures Get(QueryByProject(packet), q.canonicalProjectId).Some? <==> FirstOf(c.records, q.canonicalProjectId).Some?
    ensures FirstOf(c.records, q.canonicalProjectId).Some? ==>
              var items := Field(packet, "questions").items;
              exists i :: 0 <= i < |items| && OnlyEntry(items, q.canonicalProjectId, i)
                          && Get(QueryByProject(packet), q.canonicalProjectId) == Some(QueryOf(items[i]))
  {
    hide EntryOk, HeaderOk, QueryOf;
    var items, keys := Field(packet, "questions").items, ProjectRecordsForQuestions(c);
    FirstInIsFirst(c.records, ExactProjects(c));
    ExactProjectsMembers(c);
    GetNone(keys, q.canonicalProjectId);
    if FirstOf(c.records, q.canonicalProjectId).Some? {
      var n :| 0 <= n < |keys| && keys[n].0 == q.canonicalProjectId;
      assert Mentioned(items, keys[n].0);
      var i :| 0 <= i < |items| && KeyOf(items[i]) == keys[n].0;
      OnlyQuery(items, i);
    } else {
      NoQuery(items, keys, q.canonicalProjectId);
    }
  }

  /** The only entry with the key. */
  ghost predicate OnlyEntry(items: seq<Value>, key: Id, i: nat)
    requires i < |items| && forall j :: 0 <= j < |items| ==> Field(items[j], "projectKey").Key?
  {
    KeyOf(items[i]) == key && forall j :: 0 <= j < |items| && KeyOf(items[j]) == key ==> j == i
  }

  lemma OnlyQuery(items: seq<Value>, i: nat)
    requires i < |items| && forall j :: 0 <= j < |items| ==> Field(items[j], "projectKey").Key?
    requires forall a, b :: 0 <= a < b < |items| ==> KeyOf(items[a]) != KeyOf(items[b])
    ensures OnlyEntry(items, KeyOf(items[i]), i)
    ensures Get(FromPairs(QueryPairs(items)), KeyOf(items[i])) == Some(QueryOf(items[i]))
  {
    hide QueryOf;
    var pairs := QueryPairs(items);
    forall j | 0 <= j < |pairs| && pairs[j].0 == pairs[i].0
      ensures j == i
    {
      assert KeyOf(items[j]) == KeyOf(items[i]);
    }
    GetFunctional(pairs, i);
  }

  lemma NoQuery(items: seq<Value>, keys: Entries<Id, Record>, key: Id)
    requires forall i :: 0 <= i < |items| ==> EntryOk(items[i], keys)
    requires forall i :: 0 <= i < |items| ==> Field(items[i], "projectKey").Key?
    requires Get(keys, key).None?
    ensures Get(FromPairs(QueryPairs(items)), key).None?
  {
    hide QueryOf, InRange, TermFree;
    var pairs := QueryPairs(items);
    GetFromPairs(pairs, key);
    forall i | 0 <= i < |pairs|
      ensures pairs[i].0 != key
    {
      assert EntryOk(items[i], keys);
    }
  }

  /** `addHumanAuthoredQuestions` */
  method AddHumanAuthoredQuestions(c: ScaleCorpus, packet: Value, isDate: string -> bool)
    returns (r: Result<ScaleCorpus, seq<PacketError>>)
    ensures r.Success? <==> PacketOk(c, packet, isDate)
    ensures r.Success? ==> Keyed(packet) && r.value == WithHuman(c, packet)
    ensures r.Failure? ==> r.error != []
  {
    hide PacketOk, Keyed, Filter, HumanQuestion, QueryOf, KeyOf, QueryPairs, Get;
    var errors := ValidateAuthoringPacket(c, packet, isDate);
    if errors != [] {
      return Failure(errors);
    }
    PacketIsKeyed(c, packet, isDate);
    var queryByProject := QueryByProject(packet);
    var exact := Of(c.questions, ExactName);
    var human: seq<Question> := [];
    ghost var reword := HumanReword(queryByProject);
    for n := 0 to |exact|
      invariant |human| == n && forall i :: 0 <= i < n ==> human[i] == reword(exact[i])
    {
      var query := Get(queryByProject, exact[n].canonicalProjectId);
      human := human + [HumanQuestion(exact[n], if query.Some? then query.value else UNDEFINED)];
      assert human[n] == reword(exact[n]);
    }
    assert human == Map(exact, reword);
    r := Success(c.(questions := Without(c.questions, HumanAuthored) + human));
  }

  /** An added question gets the query `undefined` if and only if its project has no record: no accepted query is
      that short. */
  lemma UndefinedExactly(c: ScaleCorpus, packet: Value, isDate: string -> bool, q: Question)
    requires PacketOk(c, packet, isDate) && Keyed(packet)
    requires q in c.questions && q.cohort == ExactName
    ensures HumanReword(QueryByProject(packet))(q).query == UNDEFINED <==>
            FirstOf(c.records, q.canonicalProjectId).None?
  {
    hide HeaderOk, QueryOf, KeyKnown, TermFree, FirstOf, Get, QueryByProject;
    QueryIsDefined(c, packet, isDate, q);
    if FirstOf(c.records, q.canonicalProjectId).Some? {
      var items := Field(packet, "questions").items;
      var i :| 0 <= i < |items| && OnlyEntry(items, q.canonicalProjectId, i)
               && Get(QueryByProject(packet), q.canonicalProjectId) == Some(QueryOf(items[i]));
      assert EntryOk(items[i], ProjectRecordsForQuestions(c));
    }
  }

  /** No added question has the query `undefined` exactly when every exact-name question is about a project that has
      a record. */
  lemma HumanQueriesDefined(c: ScaleCorpus, packet: Value, isDate: string -> bool)
    requires PacketOk(c, packet, isDate) && Keyed(packet)
    ensures ProjectsHaveRecords(c) <==>
            forall h :: h in WithHuman(c, packet).questions && h.cohort == HumanAuthored ==> h.query != UNDEFINED
  {
    hide PacketOk, QueryByProject, FirstOf, Keyed;
    var reword, exact := HumanReword(QueryByProject(packet)), (q: Question) => q.cohort == ExactName;
    FilterMembers(c.questions, exact);
    FilterMembers(c.questions, (q: Question) => q.cohort != HumanAuthored);
    var human := Map(Of(c.questions, ExactName), reword);
    forall q | q in c.questions && q.cohort == ExactName
      ensures reword(q) in WithHuman(c, packet).questions
      ensures reword(q).query == UNDEFINED <==> FirstOf(c.records, q.canonicalProjectId).None?
    {
      UndefinedExactly(c, packet, isDate, q);
      assert q in Of(c.questions, ExactName);
      var i :| 0 <= i < |Of(c.questions, ExactName)| && Of(c.questions, ExactName)[i] == q;
      assert human[i] == reword(q);
    }
    forall h | h in WithHuman(c, packet).questions && h.cohort == HumanAuthored
      ensures exists q :: q in c.questions && q.cohort == ExactName && h == reword(q)
    {
      assert h in human;
      var i :| 0 <= i < |human| && human[i] == h;
      assert Of(c.questions, ExactName)[i] in Of(c.questions, ExactName);
    }
  }

  /** One exact-name question about a project without records. */
  const ORPHAN := ProjectId("Acme Renewal")
  const ORPHAN_QUESTION :=
    Question(QuestionId(ORPHAN, Alex, ExactName, ""), Alex, ExactName, "Renewal?", "Renewal?", ORPHAN, [], [])
  const ORPHANED :=
    ScaleCorpus(0, [], [ORPHAN_QUESTION])

  /** The completed template for it: there is nothing to write about. */
  const ADA := Object(map["author" := Text("Ada"), "authoredAt" := Text("2026-01-01"),
                          "independentlyAuthored" := Bool(true)])
  const ORPHANED_PACKET :=
    Object(map["schemaVersion" := Number(1.0), "corpusSeed" := Number(0.0), "authorship" := ADA,
               "questions" := Array([])])

  /** It happens: the packet is accepted, and the question added has no query. */
  lemma QueryCanBeUndefined(isDate: string -> bool)
    requires isDate("2026-01-01")
    ensures PacketOk(ORPHANED, ORPHANED_PACKET, isDate) && Keyed(ORPHANED_PACKET)
    ensures exists h :: h in WithHuman(ORPHANED, ORPHANED_PACKET).questions && h.cohort == HumanAuthored
                        && h.query == UNDEFINED
  {
    var packet := ORPHANED_PACKET;
    assert PacketOk(ORPHANED, packet, isDate) by {
      assert Trim("Ada") == "Ada";
      assert HeaderOk(ORPHANED, packet, isDate);
    }
    var q := ORPHANED.questions[0];
    assert q in ORPHANED.questions && FirstOf(ORPHANED.records, q.canonicalProjectId).None?;
    HumanQueriesDefined(ORPHANED, packet, isDate);
  }
}
