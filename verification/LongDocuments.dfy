/** Which generated documents are long: every 31st record, with its 18 sections. */
module LongDocuments {
  import opened Prelude
  import opened Corpus
  import opened Text
  import opened Generator
  import opened Bodies

  // ---- The sections

  lemma SectionLength(number: nat, clientName: string, projectName: string)
    ensures |Section(number, clientName, projectName)| >= 150
  {
    var head := "preserves interview, operational and delivery context for later comparison. ";
    var tail := "The source uses inconsistent terminology while still referring to ";
    assert |head| >= 70;
    assert |tail| >= 60;
    assert |"Section "| == 8;
    assert |" and "| == 5;
    DecimalDigits(number);
    assert Section(number, clientName, projectName) ==
           "Section " + Decimal(number) + " " + head + tail + clientName + " and " + projectName + ".";
  }

  lemma {:induction false} AllSections(count: nat, clientName: string, projectName: string, k: nat)
    ensures |Sections(count, clientName, projectName)| >= 150 * count
    ensures 1 <= k <= count ==>
              Contains(Sections(count, clientName, projectName), Section(k, clientName, projectName))
  {
    hide Section, Contains;
    if count > 0 {
      var last := Section(count, clientName, projectName);
      SectionLength(count, clientName, projectName);
      ContainsItself(last);
      if count > 1 {
        AllSections(count - 1, clientName, projectName, k);
        var before := Sections(count - 1, clientName, projectName);
        Appended(before, "\n\n");
        Appended(before + "\n\n", last);
      }
    }
  }

  // ---- The lengths of the other parts

  lemma NameLengths(client: nat, ordinal: nat)
    ensures |ClientName(client)| <= 20 && |ProjectName(client, ordinal)| <= 40
  {
    assert forall k :: 0 <= k < 20 ==> |CLIENT_WORDS[k]| <= 9;
    assert forall k :: 0 <= k < 5 ==> |CLIENT_SUFFIXES[k]| <= 9;
    assert forall k :: 0 <= k < 4 ==> |PROJECT_WORDS[k]| <= 10;
  }

  lemma RecordNames(o: CorpusOptions, i: nat)
    requires ValidOptions(o)
    ensures |RecordAt(o, i).canonicalClientName| <= 20 && |RecordAt(o, i).canonicalProjectName| <= 40
  {
    hide SourceReference, BuildVersion, ClientName, ProjectName, SystemAt, VisibilityAt, IssueAt, DuplicateAt, CycleAt,
      ProjectIndexAt, ClientIndexAt, OrdinalAt, VersionCountAt;
    NameLengths(ClientIndexAt(o, i), OrdinalAt(o, i));
  }

  lemma HeadLength(system: SourceSystem, issue: nat)
    requires issue < 8
    ensures |BodyHead(system, ISSUES[issue])| <= 110
  {
    assert |SourceLanguage(system)| <= 30;
    assert forall k :: 0 <= k < 8 ==> |ISSUES[k]| <= 60;
  }

  lemma ConclusionLength(stance: Stance)
    ensures |Conclusion(stance)| <= 70
  {
  }

  lemma RevisionLength(version: nat)
    requires version < 10
    ensures |Revision(version)| <= 100
  {
    assert |Decimal(version)| == 1;
    assert |"This was the initial interpretation."| <= 40;
    assert |" supersedes the earlier interpretation after additional evidence."| <= 80;
  }

  lemma MarkerLength(index: nat)
    ensures DuplicateMarkerAt(index).Some? ==> |DuplicateMarkerAt(index).value| <= 20 + |Decimal(index / 11)|
  {
  }

  lemma TailLength(index: nat, clientName: string, projectName: string, marker: Option<string>)
    ensures var tail, n := BodyTail(index, clientName, projectName, marker),
                           60 + |clientName| + |projectName| + if marker.Some? then |marker.value| else 0;
            if index % 31 == 0 then |tail| > 2600 else |tail| <= n
  {
    hide Sections;
    AllSections(18, clientName, projectName, 0);
    assert |" Client: "| == 9 && |". Project: "| == 11 && |" Shared duplicate marker: "| == 26;
  }

  // ---- Long documents

  /** The texts of every 31st record are long, that is longer than 1600 characters; a text of another record has at
      most 500, and as many more as the number of its duplicate group has digits. */
  lemma EveryThirtyFirstIsLong(o: CorpusOptions, i: nat, v: nat)
    requires ValidOptions(o) && v < VersionCountAt(i)
    ensures v < |RecordAt(o, i).versions|
    ensures i % 31 == 0 ==> |RecordAt(o, i).versions[v].body| > 1600
    ensures i % 31 != 0 ==> |RecordAt(o, i).versions[v].body| <= 500 + |Decimal(i / 11)|
  {
    hide RecordAt, BodyHead, BodyTail, Conclusion, Revision, IssueAt, DuplicateMarkerAt, StanceOf, Decimal;
    GeneratedVersion(o, i, v);
    var r, issue, marker := RecordAt(o, i), IssueAt(o.seed, i), DuplicateMarkerAt(i);
    RecordNames(o, i);
    HeadLength(r.sourceSystem, issue);
    ConclusionLength(StanceOf(v + 1, i % 23 == 0));
    RevisionLength(v + 1);
    MarkerLength(i);
    TailLength(i, r.canonicalClientName, r.canonicalProjectName, marker);
  }

  lemma Inside(text: string, part: string, piece: string)
    requires Contains(text, part) && Contains(part, piece)
    ensures Contains(text, piece)
  {
    var i: nat :| OccursAt(text, part, i);
    var j: nat :| OccursAt(part, piece, j);
    forall k | 0 <= k < |piece|
      ensures text[i + j + k] == piece[k]
    {
      assert part[j..j + |piece|][k] == part[j + k];
      assert text[i..i + |part|][j + k] == text[i + (j + k)];
    }
    assert OccursAt(text, piece, i + j);
  }

  lemma Begins(start: string, rest: string)
    ensures Contains(start + rest, start)
  {
    assert (start + rest)[..|start|] == start;
    assert OccursAt(start + rest, start, 0);
  }

  lemma SectionSays(k: nat, clientName: string, projectName: string)
    ensures var section := Section(k, clientName, projectName);
            && Contains(section, "Section " + Decimal(k) + " ") && Contains(section, clientName)
            && Contains(section, projectName)
  {
    hide Contains, Decimal;
    var start := "Section " + Decimal(k) + " ";
    var head := "preserves interview, operational and delivery context for later comparison. ";
    var tail := "The source uses inconsistent terminology while still referring to ";
    var before := start + head + tail;
    Begins(start, head + tail);
    assert before == start + (head + tail);
    Appended(before, clientName);
    Appended(before + clientName, " and ");
    Appended(before + clientName + " and ", projectName);
    Appended(before + clientName + " and " + projectName, ".");
    assert Section(k, clientName, projectName) == before + clientName + " and " + projectName + ".";
  }

  lemma EndsWithSections(system: SourceSystem, issue: string, version: nat, stance: Stance, index: nat,
                         clientName: string, projectName: string, marker: Option<string>)
    requires index % 31 == 0
    ensures Contains(Body(system, issue, version, stance, BodyTail(index, clientName, projectName, marker)),
                     Sections(18, clientName, projectName))
  {
    hide Contains, Sections, BodyHead, Conclusion, Revision;
    var sections := Sections(18, clientName, projectName);
    var shared := match marker case None => "" case Some(m) => " Shared duplicate marker: " + m + ".";
    var first := " Client: " + clientName + ". Project: " + projectName + "." + shared + "\n\n";
    var head := BodyHead(system, issue) + (Conclusion(stance) + " " + Revision(version));
    assert BodyTail(index, clientName, projectName, marker) == first + sections;
    assert head + (first + sections) == head + first + sections;
    Appended(head + first, sections);
  }

  /** Every version of such a record has the sections 1 to 18, each with its number and both names. */
  lemma LongHasSections(o: CorpusOptions, i: nat, v: nat, k: nat)
    requires ValidOptions(o) && v < VersionCountAt(i) && i % 31 == 0 && 1 <= k <= 18
    ensures var r := RecordAt(o, i);
            && v < |r.versions|
            && exists section: string :: Contains(r.versions[v].body, section)
                                         && Contains(section, "Section " + Decimal(k) + " ")
                                         && Contains(section, r.canonicalClientName)
                                         && Contains(section, r.canonicalProjectName) && |section| >= 150
  {
    hide RecordAt, Body, BodyTail, IssueAt, DuplicateMarkerAt, StanceOf, Contains, Sections, Section, Decimal;
    GeneratedVersion(o, i, v);
    var r := RecordAt(o, i);
    var c, p := r.canonicalClientName, r.canonicalProjectName;
    EndsWithSections(r.sourceSystem, ISSUES[IssueAt(o.seed, i)], v + 1, StanceOf(v + 1, i % 23 == 0), i, c, p,
                     DuplicateMarkerAt(i));
    AllSections(18, c, p, k);
    Inside(r.versions[v].body, Sections(18, c, p), Section(k, c, p));
    SectionSays(k, c, p);
    SectionLength(k, c, p);
  }
}
