/** Laws of the human cohort: it commutes with updates, adding it twice adds it once, and the template can be
    completed. */
module HumanLaws {
  import opened Prelude
  import opened Corpus
  import opened JsMap
  import opened Json
  import opened Text
  import opened Transformers
  import opened Updates
  import opened HumanQuestions

  /** The same projects in the same order, named by records with the same names. */
  ghost predicate SameKeys(m: Entries<Id, Record>, n: Entries<Id, Record>) {
    |m| == |n| && forall i :: 0 <= i < |m| ==> m[i].0 == n[i].0 && SameNames(m[i].1, n[i].1)
  }

  lemma {:induction false} SameGet(m: Entries<Id, Record>, n: Entries<Id, Record>, k: Id)
    requires SameKeys(m, n)
    ensures Get(m, k).Some? <==> Get(n, k).Some?
    ensures Get(m, k).Some? ==> SameNames(Get(m, k).value, Get(n, k).value)
  {
    if m != [] {
      assert m[0].0 == n[0].0;
      SameGet(m[1..], n[1..], k);
    }
  }

  lemma {:induction false} FirstInKept(rs: seq<Record>, ss: seq<Record>, wanted: set<Id>)
    requires SameNamesAll(rs, ss)
    ensures SameKeys(FirstIn(rs, wanted), FirstIn(ss, wanted))
  {
    if rs != [] {
      assert SameNames(rs[|rs| - 1], ss[|ss| - 1]);
      var m, n, p := FirstIn(DropLast(rs), wanted), FirstIn(DropLast(ss), wanted), Last(rs).canonicalProjectId;
      FirstInKept(DropLast(rs), DropLast(ss), wanted);
      SameGet(m, n, p);
      if p in wanted && Get(m, p).None? {
        PutNew(m, p, Last(rs));
        PutNew(n, p, Last(ss));
      }
    }
  }

  lemma SameEntryOk(item: Value, m: Entries<Id, Record>, n: Entries<Id, Record>)
    requires SameKeys(m, n)
    ensures EntryOk(item, m) <==> EntryOk(item, n)
  {
    hide ContainsWord, QueryOf, InRange;
    if item.Object? && Field(item, "projectKey").Key? {
      SameGet(m, n, Field(item, "projectKey").id);
    }
  }

  lemma SameEntriesOk(items: seq<Value>, m: Entries<Id, Record>, n: Entries<Id, Record>)
    requires SameKeys(m, n) && EntriesOk(items, m)
    ensures EntriesOk(items, n)
  {
    hide EntryOk, QueryOf, KeyOf, Mentioned;
    forall i | 0 <= i < |items|
      ensures EntryOk(items[i], n) && Field(items[i], "projectKey").Key?
    {
      SameEntryOk(items[i], m, n);
      EntryHasKey(items[i], m);
    }
    forall k | 0 <= k < |n|
      ensures Mentioned(items, n[k].0)
    {
      assert m[k].0 == n[k].0 && Mentioned(items, m[k].0);
    }
    assert (forall i, j :: 0 <= i < j < |items| ==> KeyOf(items[i]) != KeyOf(items[j]));
  }

  /** Two corpora that ask about the same projects, with the same names, accept the same packets. */
  lemma SamePackets(c: ScaleCorpus, d: ScaleCorpus, packet: Value, isDate: string -> bool)
    requires c.seed == d.seed && SameNamesAll(c.records, d.records) && ExactProjects(c) == ExactProjects(d)
    requires PacketOk(c, packet, isDate)
    ensures PacketOk(d, packet, isDate)
  {
    hide EntriesOk, AuthorshipOk;
    FirstInKept(c.records, d.records, ExactProjects(c));
    SameEntriesOk(Field(packet, "questions").items, ProjectRecordsForQuestions(c), ProjectRecordsForQuestions(d));
  }

  lemma RefreshKeepsProjects(c: ScaleCorpus, rs: seq<Record>)
    ensures ExactProjects(c.(questions := RefreshQuestions(rs, c.questions))) == ExactProjects(c)
  {
    RefreshFilters(rs, c.questions, ExactName);
    var exact := Of(c.questions, ExactName);
    assert ProjectsAsked(RefreshQuestions(rs, exact)) == ProjectsAsked(exact);
  }

  lemma UpdateKeepsProjects(c: ScaleCorpus, updateCount: int, deletionEvery: int)
    requires ValidUpdate(c, updateCount, deletionEvery)
    ensures ExactProjects(UpdatedCorpus(c, updateCount, deletionEvery)) == ExactProjects(c)
  {
    hide RefreshQuestions, Elements, Of, BatchRecords;
    var u := UpdatedCorpus(c, updateCount, deletionEvery);
    RefreshKeepsProjects(c, u.records);
    SameQuestionsSameProjects(u, c.(questions := RefreshQuestions(u.records, c.questions)));
  }

  lemma SameQuestionsSameProjects(c: ScaleCorpus, d: ScaleCorpus)
    requires Of(c.questions, ExactName) == Of(d.questions, ExactName)
    ensures ExactProjects(c) == ExactProjects(d)
  {
  }

  /** Adding a human packet and applying an update commute: the packet is accepted before exactly when it is
      accepted after, and both orders give the same corpus. */
  lemma HumanCommutesWithUpdate(c: ScaleCorpus, packet: Value, isDate: string -> bool, updateCount: int,
                                deletionEvery: int)
    requires DistinctIds(c.records) && ValidUpdate(c, updateCount, deletionEvery) && Keyed(packet)
    ensures ValidUpdate(WithHuman(c, packet), updateCount, deletionEvery)
    ensures PacketOk(UpdatedCorpus(c, updateCount, deletionEvery), packet, isDate) <==> PacketOk(c, packet, isDate)
    ensures WithHuman(UpdatedCorpus(c, updateCount, deletionEvery), packet) ==
            UpdatedCorpus(WithHuman(c, packet), updateCount, deletionEvery)
  {
    hide BatchRecords, EvidenceIds, PacketOk, QueryByProject, Added, SameNames, Keyed, ExactProjects, DistinctIds;
    var u := UpdatedCorpus(c, updateCount, deletionEvery);
    UpdateKeepsNames(c, updateCount, deletionEvery);
    SameNamesBack(c.records, u.records);
    UpdateKeepsProjects(c, updateCount, deletionEvery);
    if PacketOk(c, packet, isDate) {
      SamePackets(c, u, packet, isDate);
    }
    if PacketOk(u, packet, isDate) {
      SamePackets(u, c, packet, isDate);
    }
    BatchIgnoresQuestions(c, WithHuman(c, packet), updateCount, deletionEvery);
    AddedRefreshed(u.records, c.questions, HumanAuthored, HumanReword(QueryByProject(packet)),
                   HumanReword(QueryByProject(packet)));
  }

  lemma SameNamesBack(rs: seq<Record>, ss: seq<Record>)
    requires SameNamesAll(rs, ss)
    ensures SameNamesAll(ss, rs)
  {
    forall i | 0 <= i < |rs|
      ensures SameNames(ss[i], rs[i])
    {
      assert SameNames(rs[i], ss[i]);
    }
  }

  /** A packet stays acceptable after its questions were added, and adding it again changes nothing. */
  lemma HumanIsIdempotent(c: ScaleCorpus, packet: Value, isDate: string -> bool)
    requires PacketOk(c, packet, isDate) && Keyed(packet)
    ensures PacketOk(WithHuman(c, packet), packet, isDate)
    ensures WithHuman(WithHuman(c, packet), packet) == WithHuman(c, packet)
  {
    hide PacketOk, QueryByProject, ExactProjects, Keyed;
    AddedTwice(c.questions, HumanAuthored, HumanReword(QueryByProject(packet)));
    AddedKeepsExact(c.questions, HumanAuthored, HumanReword(QueryByProject(packet)));
    SameQuestionsSameProjects(c, WithHuman(c, packet));
    SamePackets(c, WithHuman(c, packet), packet, isDate);
  }

  // ---- Filling in the template

  /** The template with its authorship and its questions filled in. */
  function Completed(c: ScaleCorpus, authorship: Value, queries: seq<string>): Value
    requires |queries| == |ProjectRecordsForQuestions(c)|
  {
    Object(Template(c).fields["authorship" := authorship]["questions" :=
           Array(CompletedEntries(ProjectRecordsForQuestions(c), queries))])
  }

  function CompletedEntries(keys: Entries<Id, Record>, queries: seq<string>): seq<Value>
    requires |queries| == |keys|
    ensures |CompletedEntries(keys, queries)| == |keys|
  {
    seq(|keys|, i requires 0 <= i < |keys| => Object(TemplateEntry(keys[i].1).fields["question" := Text(queries[i])]))
  }

  /** A question for the project the record names. */
  predicate Suits(query: string, r: Record) {
    InRange(Trim(query)) && !ContainsWord(Trim(query), Term(r))
  }

  ghost predicate QueriesOk(keys: Entries<Id, Record>, queries: seq<string>) {
    && |queries| == |keys|
    && (forall i :: 0 <= i < |keys| ==> Suits(queries[i], keys[i].1))
    && (forall i, j :: 0 <= i < j < |keys| ==> Lower(Trim(queries[i])) != Lower(Trim(queries[j])))
  }

  /** Completing the template with an author and suitable queries gives a packet that validates, and with unsuitable
      queries one that does not. */
  lemma TemplateCompletes(c: ScaleCorpus, authorship: Value, queries: seq<string>, isDate: string -> bool)
    requires |queries| == |ProjectRecordsForQuestions(c)| && AuthorshipOk(authorship, isDate)
    ensures PacketOk(c, Completed(c, authorship, queries), isDate) <==>
            QueriesOk(ProjectRecordsForQuestions(c), queries)
  {
    hide AuthorshipOk, EntriesOk, QueriesOk, FirstIn, ExactProjects, DistinctKeys, CompletedEntries, HeaderOk;
    var keys := ProjectRecordsForQuestions(c);
    FirstInIsFirst(c.records, ExactProjects(c));
    KeysNameProjects(c.records, ExactProjects(c));
    CompletedItems(keys, queries);
    CompletedHeader(c, authorship, queries, isDate);
  }

  lemma CompletedHeader(c: ScaleCorpus, authorship: Value, queries: seq<string>, isDate: string -> bool)
    requires |queries| == |ProjectRecordsForQuestions(c)| && AuthorshipOk(authorship, isDate)
    ensures HeaderOk(c, Completed(c, authorship, queries), isDate)
    ensures Field(Completed(c, authorship, queries), "questions") ==
            Array(CompletedEntries(ProjectRecordsForQuestions(c), queries))
  {
    hide AuthorshipOk, CompletedEntries, ProjectRecordsForQuestions;
  }

  lemma CompletedItems(keys: Entries<Id, Record>, queries: seq<string>)
    requires |keys| == |queries| && DistinctKeys(keys)
    requires forall i :: 0 <= i < |keys| ==> keys[i].1.canonicalProjectId == keys[i].0
    ensures EntriesOk(CompletedEntries(keys, queries), keys) <==> QueriesOk(keys, queries)
  {
    hide CompletedEntries, EntryOk, Suits, Field, QueryOf, Trim, EntriesOk, QueriesOk, DistinctKeys, PrefixOk;
    var items := CompletedEntries(keys, queries);
    forall i | 0 <= i < |keys|
      ensures MatchedAt(keys, items, queries, i)
    {
      CompletedEntry(keys, queries, i);
    }
    if EntriesOk(items, keys) {
      AllPrefix(items, keys);
      MatchedQueries(keys, items, queries);
    }
    if QueriesOk(keys, queries) {
      MatchedEntries(keys, items, queries);
    }
  }

  lemma AllPrefix(items: seq<Value>, keys: Entries<Id, Record>)
    requires EntriesOk(items, keys)
    ensures PrefixOk(items, keys, |items|)
  {
  }

  lemma CompletedEntry(keys: Entries<Id, Record>, queries: seq<string>, i: nat)
    requires |queries| == |keys| && i < |keys| && DistinctKeys(keys) && keys[i].1.canonicalProjectId == keys[i].0
    ensures var item := CompletedEntries(keys, queries)[i];
            && Field(item, "projectKey") == Key(keys[i].0) && QueryOf(item) == Trim(queries[i])
            && EntryOk(item, keys) == Suits(queries[i], keys[i].1)
  {
    hide ContainsWord, Trim, Lower, Get, Term, ProjectScenario, InRange;
    GetAt(keys, i);
    hide DistinctKeys;
    assert CompletedEntries(keys, queries)[i] ==
           Object(TemplateEntry(keys[i].1).fields["question" := Text(queries[i])]);
  }

  /** The entries are the queries, place by place. */
  ghost predicate Matched(keys: Entries<Id, Record>, items: seq<Value>, queries: seq<string>) {
    && |items| == |keys| == |queries| && DistinctKeys(keys)
    && forall i :: 0 <= i < |keys| ==> MatchedAt(keys, items, queries, i)
  }

  ghost predicate MatchedAt(keys: Entries<Id, Record>, items: seq<Value>, queries: seq<string>, i: nat)
    requires i < |items| == |keys| == |queries|
  {
    && Field(items[i], "projectKey") == Key(keys[i].0) && QueryOf(items[i]) == Trim(queries[i])
    && EntryOk(items[i], keys) == Suits(queries[i], keys[i].1)
  }

  lemma MatchedQueries(keys: Entries<Id, Record>, items: seq<Value>, queries: seq<string>)
    requires Matched(keys, items, queries) && PrefixOk(items, keys, |items|)
    ensures QueriesOk(keys, queries)
  {
    hide EntryOk, Trim, Lower, QueryOf, Suits;
    forall i | 0 <= i < |keys|
      ensures Suits(queries[i], keys[i].1)
    {
      assert MatchedAt(keys, items, queries, i) && EntryOk(items[i], keys);
    }
    forall i, j | 0 <= i < j < |keys|
      ensures Lower(Trim(queries[i])) != Lower(Trim(queries[j]))
    {
      assert MatchedAt(keys, items, queries, i) && MatchedAt(keys, items, queries, j);
      assert Lower(QueryOf(items[i])) != Lower(QueryOf(items[j]));
    }
  }

  lemma MatchedEntries(keys: Entries<Id, Record>, items: seq<Value>, queries: seq<string>)
    requires Matched(keys, items, queries) && QueriesOk(keys, queries)
    ensures EntriesOk(items, keys)
  {
    hide EntryOk, Trim, Lower, QueryOf, Suits;
    forall i | 0 <= i < |items|
      ensures EntryOk(items[i], keys) && Field(items[i], "projectKey") == Key(keys[i].0)
    {
      assert MatchedAt(keys, items, queries, i);
    }
    forall i, j | 0 <= i < j < |items|
      ensures KeyOf(items[i]) != KeyOf(items[j]) && Lower(QueryOf(items[i])) != Lower(QueryOf(items[j]))
    {
      assert MatchedAt(keys, items, queries, i) && MatchedAt(keys, items, queries, j);
      assert keys[i].0 != keys[j].0 && Lower(Trim(queries[i])) != Lower(Trim(queries[j]));
    }
    assert PrefixOk(items, keys, |items|);
    KeysMatch(keys, items);
  }

  lemma KeysMatch(keys: Entries<Id, Record>, items: seq<Value>)
    requires |items| == |keys| && PrefixOk(items, keys, |items|)
    requires forall i :: 0 <= i < |items| ==> Field(items[i], "projectKey") == Key(keys[i].0)
    ensures EntriesOk(items, keys)
  {
    hide EntryOk, Field, QueryOf, Lower;
    var seen := set i | 0 <= i < |items| :: KeyOf(items[i]);
    forall n | 0 <= n < |keys|
      ensures keys[n].0 in seen
    {
      assert KeyOf(items[n]) == keys[n].0;
    }
    PrefixKeys(items, keys, seen);
  }

  lemma {:induction false} KeysNameProjects(rs: seq<Record>, wanted: set<Id>)
    ensures forall n :: 0 <= n < |FirstIn(rs, wanted)| ==>
                          FirstIn(rs, wanted)[n].1.canonicalProjectId == FirstIn(rs, wanted)[n].0
  {
    if rs != [] {
      KeysNameProjects(DropLast(rs), wanted);
      var m, p := FirstIn(DropLast(rs), wanted), Last(rs).canonicalProjectId;
      if Get(m, p).None? {
        PutNew(m, p, Last(rs));
      }
    }
  }
}
