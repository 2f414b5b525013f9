/** What the texts of a generated corpus say, and how the added questions differ from the ones they are paired with. */
module Wordings {
  import opened Prelude
  import opened Corpus
  import opened Json
  import opened Text
  import opened Updates
  import opened Generator
  import opened Names
  import opened Transformers
  import opened HumanQuestions
  import opened Lineage
  import opened Bodies

  // ---- Records

  lemma BodySays(system: SourceSystem, issue: string, version: nat, stance: Stance, index: nat, clientName: string,
                 projectName: string, marker: Option<string>)
    ensures var body := Body(system, issue, version, stance, BodyTail(index, clientName, projectName, marker));
            && Contains(body, SourceLanguage(system)) && Contains(body, issue) && Contains(body, Conclusion(stance))
            && Contains(body, clientName) && Contains(body, projectName)
            && (marker.Some? ==> Contains(body, marker.value))
  {
    hide Contains, SourceLanguage, Conclusion, Revision, Sections;
    var tail := BodyTail(index, clientName, projectName, marker);
    var language := SourceLanguage(system);
    ContainsItself(language);
    var a := language + " that ";
    var b := a + issue;
    var c := b + " is ";
    var d := c + Conclusion(stance);
    var e := d + " ";
    var f := e + Revision(version);
    Appended(language, " that ");
    Appended(a, issue);
    Appended(b, " is ");
    Appended(c, Conclusion(stance));
    Appended(d, " ");
    Appended(e, Revision(version));
    assert Body(system, issue, version, stance, tail) == f + tail;
    Appended(f, tail);
    TailSays(f, index, clientName, projectName, marker);
  }

  lemma TailSays(head: string, index: nat, clientName: string, projectName: string, marker: Option<string>)
    ensures var text := head + BodyTail(index, clientName, projectName, marker);
            && Contains(text, clientName) && Contains(text, projectName)
            && (marker.Some? ==> Contains(text, marker.value))
  {
    hide Contains, Sections;
    var shared := match marker case None => "" case Some(m) => " Shared duplicate marker: " + m + ".";
    var long := if index % 31 == 0 then "\n\n" + Sections(18, clientName, projectName) else "";
    var tail := BodyTail(index, clientName, projectName, marker);
    var a := head + " Client: ";
    var b := a + clientName;
    var c := b + ". Project: ";
    var d := c + projectName;
    var e := d + ".";
    assert head + tail == e + shared + long;
    Appended(a, clientName);
    Appended(b, ". Project: ");
    Appended(c, projectName);
    Appended(d, ".");
    Appended(e, shared);
    if marker.Some? {
      var g := e + " Shared duplicate marker: ";
      Appended(g, marker.value);
      Appended(g + marker.value, ".");
      assert e + shared == g + marker.value + ".";
    }
    Appended(e + shared, long);
  }

  /** The text of every generated version says what kind of source speaks, which issue it is about, what it concludes,
      and names client and project; its title names project, issue and version; its date is 3 days per record and 17 per
      version after the start of 2025, within 600 days. */
  lemma GeneratedTextSays(o: CorpusOptions, i: nat, v: nat)
    requires ValidOptions(o) && v < VersionCountAt(i)
    ensures var r := RecordAt(o, i);
            && v < |r.versions|
            && var w := r.versions[v];
            && Contains(w.body, SourceLanguage(r.sourceSystem)) && Contains(w.body, ISSUES[IssueAt(o.seed, i)])
            && Contains(w.body, Conclusion(w.stance))
            && Contains(w.body, r.canonicalClientName) && Contains(w.body, r.canonicalProjectName)
            && Contains(w.title, r.canonicalProjectName) && Contains(w.title, ISSUES[IssueAt(o.seed, i)])
            && EndsWith(w.title, "(v" + Decimal(v + 1) + ")")
            && w.updatedAt == EPOCH_2025 + (3 * i + 17 * (v + 1)) % 600 * DAY_MS
  {
    hide RecordAt, Body, BodyTail, IssueAt, DuplicateMarkerAt, StanceOf, Contains, SourceLanguage, Conclusion;
    GeneratedVersion(o, i, v);
    VersionSays(o, i, v);
    var r := RecordAt(o, i);
    BodySays(r.sourceSystem, ISSUES[IssueAt(o.seed, i)], v + 1, StanceOf(v + 1, i % 23 == 0), i,
             r.canonicalClientName, r.canonicalProjectName, DuplicateMarkerAt(i));
  }

  lemma VersionSays(o: CorpusOptions, i: nat, v: nat)
    requires ValidOptions(o) && v < VersionCountAt(i)
    ensures var r := RecordAt(o, i);
            && v < |r.versions|
            && var w, issue := r.versions[v], ISSUES[IssueAt(o.seed, i)];
            && Contains(w.title, r.canonicalProjectName) && Contains(w.title, issue)
            && EndsWith(w.title, "(v" + Decimal(v + 1) + ")")
            && w.updatedAt == EPOCH_2025 + (3 * i + 17 * (v + 1)) % 600 * DAY_MS
  {
    hide SourceReference, IssueAt, Body, BodyTail, ClientName, ProjectName, DuplicateMarkerAt, SystemAt, VisibilityAt,
      VersionCountAt, ProjectIndexAt, CycleAt, ClientIndexAt, OrdinalAt, ProjectCount, Contains, EndsWith;
    var r, issue := RecordAt(o, i), ISSUES[IssueAt(o.seed, i)];
    var w := BuildVersion(i, v + 1, r.sourceSystem, r.canonicalClientName, r.canonicalProjectName, issue,
                          DuplicateMarkerAt(i), i % 23 == 0);
    assert r.versions[v] == w;
    TitleSays(r.canonicalProjectName, issue, Decimal(v + 1));
  }

  lemma TitleSays(projectName: string, issue: string, digits: string)
    ensures var title := projectName + ": " + issue + " (v" + digits + ")";
            Contains(title, projectName) && Contains(title, issue) && EndsWith(title, "(v" + digits + ")")
  {
    hide Contains;
    ContainsItself(projectName);
    var a := projectName + ": ";
    Appended(projectName, ": ");
    Appended(a, issue);
    Appended(a + issue, " (v");
    Appended(a + issue + " (v", digits);
    Appended(a + issue + " (v" + digits, ")");
    EndOfTitle(a + issue + " ", digits);
    assert projectName + ": " + issue + " (v" + digits + ")" == a + issue + " " + "(v" + digits + ")";
  }

  /** How a source refers to a client or project: shared aliases carry a number below seven; otherwise a CRM counts
      accounts from 10000, meetings append the number, and the others use the name's slug, documents as a path and
      messages as a channel. */
  lemma ReferenceSays(system: SourceSystem, name: string, index: nat, ambiguous: bool)
    ensures var reference, slug := SourceReference(system, name, index, ambiguous), Normalize(name, '-');
            if ambiguous then index % 7 < 7 && reference == "shared-" + Decimal(index % 7)
            else
              && (system == Crm ==> reference == "account-" + Decimal(10_000 + index))
              && (system == Meetings ==> EndsWith(reference, "-" + Decimal(index)) && ' ' !in WithoutSpaces(name))
              && (system == Research ==> reference == slug)
              && (system == Documents || system == Messages ==> EndsWith(reference, slug) && reference != slug)
              && (system == Documents ==> reference[0] == '/') && (system == Messages ==> reference[0] == 'c')
  {
    hide Normalize, Decimal, Filter, EndsWith;
    var slug := Normalize(name, '-');
    FilterMembers(name, (c: char) => c != ' ');
    EndsIn("/clients/", slug);
    EndsIn("channel-", slug);
    EndsIn(WithoutSpaces(name), "-" + Decimal(index));
    assert WithoutSpaces(name) + "-" + Decimal(index) == WithoutSpaces(name) + ("-" + Decimal(index));
  }

  /** Every eleventh record, from the twelfth on, is a duplicate of the record eleven before it, and both the duplicate
      and what the text calls its group say so. */
  lemma DuplicatesAreMarked(o: CorpusOptions, i: nat, v: nat)
    requires ValidOptions(o) && v < VersionCountAt(i)
    ensures RecordAt(o, i).duplicateOf ==
            if i >= 11 && i % 11 == 0 then Some(RecordAt(o, i - 11).id) else None
    ensures RecordAt(o, i).duplicateOf.Some? ==>
              v < |RecordAt(o, i).versions|
              && Contains(RecordAt(o, i).versions[v].body, "duplicate-group-" + Decimal(i / 11))
  {
    hide RecordAt, Body, BodyTail, IssueAt, StanceOf, Contains, SourceLanguage, Conclusion;
    GeneratedVersion(o, i, v);
    var r := RecordAt(o, i);
    DuplicateFacts(o, i);
    BodySays(r.sourceSystem, ISSUES[IssueAt(o.seed, i)], v + 1, StanceOf(v + 1, i % 23 == 0), i,
             r.canonicalClientName, r.canonicalProjectName, DuplicateMarkerAt(i));
  }

  lemma DuplicateFacts(o: CorpusOptions, i: nat)
    requires ValidOptions(o)
    ensures RecordAt(o, i).duplicateOf == if i >= 11 && i % 11 == 0 then Some(RecordAt(o, i - 11).id) else None
  {
    hide SourceReference, BuildVersion, ClientName, ProjectName, SystemAt, VisibilityAt, IssueAt, CycleAt,
      ProjectIndexAt, ClientIndexAt, OrdinalAt, VersionCountAt;
  }

  // ---- Questions

  /** An exact-name question asks for the project by its name, and searches for that name. */
  ghost predicate AsksByName(q: Question, rs: seq<Record>) {
    exists r :: r in rs && r.canonicalProjectId == q.canonicalProjectId && !r.deleted
                && q.lexicalQuery == r.canonicalProjectName && Contains(q.query, r.canonicalProjectName)
  }

  lemma {:induction false} QuestionsAskByName(rs: seq<Record>, projects: seq<Id>)
    requires forall i :: 0 <= i < |projects| ==> HasLiveRecord(rs, projects[i])
    ensures |ExactQuestions(rs, projects)| == 3 * |projects|
    ensures forall q :: q in ExactQuestions(rs, projects) ==> AsksByName(q, rs)
  {
    hide EvidenceIds, ProjectRecords, Contains;
    if projects != [] {
      var d, p := DropLast(projects), Last(projects);
      QuestionsAskByName(rs, d);
      ProjectRecordsMembers(rs, p);
      var r := ProjectRecords(rs, p)[0];
      assert r in ProjectRecords(rs, p);
      var name := r.canonicalProjectName;
      Appended("What is preventing customers from completing ", name);
      Appended("What is preventing customers from completing " + name, "?");
      forall q | q in ProjectQuestions(rs, p)
        ensures AsksByName(q, rs)
      {
        assert q.lexicalQuery == name;
      }
    }
  }

  /** A generated corpus asks three questions about each selected project, all by its name. */
  lemma GeneratedQuestionsSay(o: CorpusOptions)
    requires ValidOptions(o) && ProjectsAreLive(o)
    ensures var c := CorpusOf(o);
            && |c.questions| == 3 * |SelectedProjects(o, c.records)|
            && forall q :: q in c.questions ==> AsksByName(q, c.records)
  {
    hide RecordAt, SelectedProjects, HasLiveRecord, ExactQuestions, AsksByName;
    var rs := RecordsOf(o, o.recordCount);
    QuestionsAskByName(rs, SelectedProjects(o, rs));
  }

  /** An added question is paired with an exact-name one: the same project, actor and answers, another identifier, and
      one text for reading and searching. */
  ghost predicate Paired(h: Question, q: Question, cohort: Cohort) {
    && q.cohort == ExactName && h.cohort == cohort
    && h.canonicalProjectId == q.canonicalProjectId && h.actor == q.actor
    && h.expectedRecordIds == q.expectedRecordIds && h.forbiddenRecordIds == q.forbiddenRecordIds
    && h.lexicalQuery == h.query
    && h.id.QuestionId? && h.id.project == q.canonicalProjectId && h.id.actor == q.actor && h.id.cohort == cohort
  }

  lemma AddedArePaired(qs: seq<Question>, cohort: Cohort, reword: Question -> Question)
    requires forall q: Question :: q.cohort == ExactName ==> Paired(reword(q), q, cohort)
    ensures var added := Added(qs, cohort, reword);
            && |Of(added, cohort)| == |Of(qs, ExactName)|
            && forall h :: h in added && h.cohort == cohort ==> exists q :: q in qs && Paired(h, q, cohort)
  {
    hide Paired, Filter;
    var base, exact := Without(qs, cohort), Of(qs, ExactName);
    var more := Map(exact, reword);
    FilterMembers(qs, (q: Question) => q.cohort != cohort);
    FilterMembers(qs, (q: Question) => q.cohort == ExactName);
    forall i | 0 <= i < |more|
      ensures more[i].cohort == cohort && exact[i] in qs && Paired(more[i], exact[i], cohort)
    {
      assert exact[i] in exact;
      PairedCohort(more[i], exact[i], cohort);
    }
    FilterAppend(base, more, (q: Question) => q.cohort == cohort);
    FilterNone(base, (q: Question) => q.cohort == cohort);
    FilterAll(more, (q: Question) => q.cohort == cohort);
    forall h | h in base + more && h.cohort == cohort
      ensures exists q :: q in qs && Paired(h, q, cohort)
    {
      var i :| 0 <= i < |more| && more[i] == h;
    }
  }

  lemma PairedCohort(h: Question, q: Question, cohort: Cohort)
    requires Paired(h, q, cohort)
    ensures h.cohort == cohort
  {
  }

  /** Both adders pair every question they add with an exact-name one. */
  lemma AddersPair(c: ScaleCorpus, packet: Value)
    requires Keyed(packet)
    ensures forall h :: h in WithVocabulary(c).questions && h.cohort == VocabularyMismatch ==>
                          exists q :: q in c.questions && Paired(h, q, VocabularyMismatch)
    ensures forall h :: h in WithHuman(c, packet).questions && h.cohort == HumanAuthored ==>
                          exists q :: q in c.questions && Paired(h, q, HumanAuthored)
    ensures |Of(WithVocabulary(c).questions, VocabularyMismatch)| == |Of(c.questions, ExactName)|
    ensures |Of(WithHuman(c, packet).questions, HumanAuthored)| == |Of(c.questions, ExactName)|
  {
    hide Filter, QueryByProject, Wording, Keyed;
    AddedArePaired(c.questions, VocabularyMismatch, VocabularyReword(c.records));
    AddedArePaired(c.questions, HumanAuthored, HumanReword(QueryByProject(packet)));
  }

  // ---- Vocabulary questions do not give the project's name away

  /** No capital letter after the first character. */
  predicate OneCapital(s: string) { forall i :: 1 <= i < |s| ==> !IsUpper(s[i]) }

  predicate NoCapital(s: string) { forall i :: 0 <= i < |s| ==> !IsUpper(s[i]) }

  lemma Heads()
    ensures OneCapital("Where are new ") && OneCapital("Why are existing ") && OneCapital("What obstructs ")
    ensures OneCapital("What unmet needs ") && NoCapital("are emerging ") && NoCapital("from early customer ")
    ensures NoCapital("research for ")
  {
  }

  lemma Tails()
    ensures NoCapital(" applicants getting ") && NoCapital("stuck while opening ") && NoCapital("an account?")
    ensures NoCapital(" customers failing ") && NoCapital("to continue ") && NoCapital("their service?")
    ensures NoCapital(" customers moving ") && NoCapital("onto the ") && NoCapital("replacement platform?")
    ensures NoCapital("?")
  {
  }

  /** The wording is a text with one capital, the client's name, and a text without. */
  lemma WordingFrames(projectName: string, clientName: string) returns (head: string, tail: string)
    requires VocabularyQuery(projectName, clientName).Some?
    ensures VocabularyQuery(projectName, clientName).value == head + clientName + tail
    ensures head != "" && OneCapital(head) && NoCapital(tail)
  {
    hide EndsWith;
    Heads();
    Tails();
    if EndsWith(projectName, " Onboarding") {
      head, tail := "Where are new ", " applicants getting " + "stuck while opening " + "an account?";
    } else if EndsWith(projectName, " Renewal") {
      head, tail := "Why are existing ", " customers failing " + "to continue " + "their service?";
    } else if EndsWith(projectName, " Migration") {
      head, tail := "What obstructs ", " customers moving " + "onto the " + "replacement platform?";
    } else {
      head := "What unmet needs " + "are emerging " + "from early customer " + "research for ";
      tail := "?";
    }
  }

  /** No word of a client's name starts like a project word. */
  lemma WordsGoOn(i: nat, ordinal: nat)
    ensures |ClientWord(i)| >= 3 && |ClientSuffix(i)| >= 3 && |ProjectWord(ordinal)| >= 3
    ensures ClientWord(i)[..3] != ProjectWord(ordinal)[..3]
    ensures ClientSuffix(i)[..3] != ProjectWord(ordinal)[..3]
  {
    var k, s, n := i % 20, i / 20 % 5, ordinal % 4;
    assert n == 0 || n == 1 || n == 2 || n == 3;
    assert s == 0 || s == 1 || s == 2 || s == 3 || s == 4;
    var word, suffix, project := ClientWord(i), ClientSuffix(i), ProjectWord(ordinal);
    ClientWords(k);
    assert word[0] == 'D' ==> word == "Delta";
    assert word[0] == 'M' ==> word == "Morrow";
    assert word[0] == 'O' ==> word == "Orchid";
    assert word[0] == 'R' ==> word == "Rook";
    LongWords(k);
    FirstThree(word);
    FirstThree(suffix);
    FirstThree(project);
  }

  lemma FirstThree(s: string)
    requires |s| >= 3
    ensures s[..3][0] == s[0] && s[..3][1] == s[1] && s[..3][2] == s[2]
  {
  }

  lemma LongWords(i: nat)
    requires i < 20
    ensures |CLIENT_WORDS[i]| >= 3
  {
    if i < 10 {
      assert i == 0 || i == 1 || i == 2 || i == 3 || i == 4 || i == 5 || i == 6 || i == 7 || i == 8 || i == 9;
    } else {
      assert i == 10 || i == 11 || i == 12 || i == 13 || i == 14 || i == 15 || i == 16 || i == 17 || i == 18 || i == 19;
    }
  }

  /** Where a capital stands in a client's name, one of its two words starts. */
  lemma CapitalsStartWords(i: nat, x: nat)
    requires x < |ClientName(i)| && IsUpper(ClientName(i)[x])
    ensures x + 3 <= |ClientName(i)|
    ensures ClientName(i)[x..x + 3] == ClientWord(i)[..3] || ClientName(i)[x..x + 3] == ClientSuffix(i)[..3]
  {
    hide ClientWord, ClientSuffix;
    var word, suffix, name := ClientWord(i), ClientSuffix(i), ClientName(i);
    IsWords(i);
    WordsGoOn(i, 0);
    if x < |word| {
      assert name[x] == word[x];
      assert x == 0;
      assert name[..3] == word[..3];
    } else {
      assert x != |word|;
      assert name[x] == suffix[x - |word| - 1];
      assert x == |word| + 1;
      assert name[x..x + 3] == suffix[..3];
    }
  }

  lemma IsWords(i: nat)
    ensures Word(ClientWord(i)) && Word(ClientSuffix(i))
  {
    ClientWords(i % 20);
    OtherWords();
  }

  lemma ProjectWordIsWord(ordinal: nat)
    ensures Word(ProjectWord(ordinal))
  {
    OtherWords();
  }

  lemma CapitalInside(head: string, client: string, tail: string, u: nat)
    requires OneCapital(head) && NoCapital(tail) && 0 < u < |head + client + tail| && IsUpper((head + client + tail)[u])
    ensures |head| <= u < |head| + |client| && client[u - |head|] == (head + client + tail)[u]
  {
  }

  lemma SliceInside(head: string, client: string, tail: string, x: nat)
    requires x + 3 <= |client|
    ensures (head + client + tail)[|head| + x..|head| + x + 3] == client[x..x + 3]
  {
  }

  lemma SliceOfSlice(s: string, a: nat, b: nat, c: nat, d: nat)
    requires a <= b <= |s| && c <= d <= b - a
    ensures s[a..b][c..d] == s[a + c..a + d]
  {
    var t, u := s[a..b][c..d], s[a + c..a + d];
    assert |t| == |u|;
    forall i | 0 <= i < |t|
      ensures t[i] == u[i]
    {
      assert t[i] == s[a..b][c + i] == s[a + c + i];
    }
  }

  lemma WordOccurs(query: string, client: string, word: string, at: nat)
    requires |word| >= 3 && OccursAt(query, client + " " + word, at)
    ensures at + |client| + 4 <= |query|
    ensures query[at + |client| + 1..at + |client| + 4] == word[..3] && query[at + |client| + 1] == word[0]
  {
    var name, u := client + " " + word, at + |client| + 1;
    SliceOfSlice(query, at, at + |name|, |client| + 1, |client| + 4);
    assert name[|client| + 1..|client| + 4] == word[..3];
    assert query[u] == query[u..u + 3][0];
  }

  lemma NotFramed(head: string, tail: string, i: nat, ordinal: nat, at: nat)
    requires OneCapital(head) && NoCapital(tail)
    ensures !OccursAt(head + ClientName(i) + tail, ClientName(i) + " " + ProjectWord(ordinal), at)
  {
    hide ClientName, ProjectWord, OccursAt, OneCapital, NoCapital;
    var client, word := ClientName(i), ProjectWord(ordinal);
    WordsGoOn(i, ordinal);
    ProjectWordIsWord(ordinal);
    if OccursAt(head + client + tail, client + " " + word, at) {
      WordOccurs(head + client + tail, client, word, at);
      var u := at + |client| + 1;
      CapitalInside(head, client, tail, u);
      CapitalsStartWords(i, u - |head|);
      SliceInside(head, client, tail, u - |head|);
    }
  }

  /** The project's name does not occur in the wording of its vocabulary-mismatch question. */
  lemma WordingHidesName(i: nat, ordinal: nat)
    ensures VocabularyQuery(ProjectName(i, ordinal), ClientName(i)).Some?
    ensures !Contains(VocabularyQuery(ProjectName(i, ordinal), ClientName(i)).value, ProjectName(i, ordinal))
  {
    hide VocabularyQuery, ClientName, ProjectWord, OccursAt, OneCapital, NoCapital;
    NameEndsInWord(ClientName(i), ordinal, ClientName(i));
    var head, tail := WordingFrames(ProjectName(i, ordinal), ClientName(i));
    forall at: nat
      ensures !OccursAt(head + ClientName(i) + tail, ProjectName(i, ordinal), at)
    {
      NotFramed(head, tail, i, ordinal, at);
    }
  }

  lemma BaseNames(o: CorpusOptions, i: nat)
    requires ValidOptions(o)
    ensures var r, client, ordinal := RecordAt(o, i), ClientIndexAt(o, i), OrdinalAt(o, i);
            && r.canonicalClientName == ClientName(client) && r.canonicalProjectName == ProjectName(client, ordinal)
            && r.canonicalProjectId == ProjectId(r.canonicalProjectName)
  {
    hide SourceReference, BuildVersion, ProjectName, ClientName, IssueAt, DuplicateAt, VisibilityAt, SystemAt,
      ProjectIndexAt, CycleAt, ClientIndexAt, OrdinalAt;
  }

  lemma GrownNames(o: CorpusOptions, c: ScaleCorpus, r: Record)
    requires Grown(o, c) && r in c.records
    ensures r.canonicalProjectId == ProjectId(r.canonicalProjectName)
    ensures VocabularyQuery(r.canonicalProjectName, r.canonicalClientName).Some?
    ensures !Contains(VocabularyQuery(r.canonicalProjectName, r.canonicalClientName).value, r.canonicalProjectName)
  {
    hide QuestionsAnswered, Continues, VocabularyQuery, Contains, RecordAt, ProjectName, ClientName;
    var i :| 0 <= i < |c.records| && c.records[i] == r;
    assert Descends(RecordAt(o, i), c.records[i]);
    BaseNames(o, i);
    WordingHidesName(ClientIndexAt(o, i), OrdinalAt(o, i));
  }

  /** On every corpus grown from a generated one, no vocabulary-mismatch question that is added contains the name of
      its project. */
  lemma VocabularyHidesNames(o: CorpusOptions, c: ScaleCorpus, h: Question, r: Record)
    requires Grown(o, c) && h in WithVocabulary(c).questions && h.cohort == VocabularyMismatch
    requires r in c.records && r.canonicalProjectId == h.canonicalProjectId
    ensures !Contains(h.query, r.canonicalProjectName)
  {
    hide RecordsDescend, VocabularyQuery, Contains, EvidenceIds, FirstOf, Filter, DistinctPlaces;
    var q := RewordedFrom(c, h);
    assert Answered(c.records, q);
    FirstOfMember(c.records, q.canonicalProjectId);
    GrownNames(o, c, FirstOf(c.records, q.canonicalProjectId).value);
    GrownNames(o, c, r);
  }

  lemma RewordedFrom(c: ScaleCorpus, h: Question) returns (q: Question)
    requires h in WithVocabulary(c).questions && h.cohort == VocabularyMismatch
    ensures q in c.questions && h == VocabularyReword(c.records)(q)
  {
    hide Filter, Wording;
    var exact := Of(c.questions, ExactName);
    var added := Map(exact, VocabularyReword(c.records));
    FilterMembers(c.questions, (q: Question) => q.cohort != VocabularyMismatch);
    FilterMembers(c.questions, (q: Question) => q.cohort == ExactName);
    assert h in added;
    var i :| 0 <= i < |added| && added[i] == h;
    q := exact[i];
    assert q in exact;
  }
}
