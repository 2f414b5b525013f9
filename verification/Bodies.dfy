/** No two versions of a generated record have the same content. */
module Bodies {
  import opened Prelude
  import opened Corpus
  import opened Generator
  import opened Lineage

  // ---- The versions the generator makes

  function Core(version: nat, stance: Stance): string {
    Conclusion(stance) + " " + Revision(version)
  }

  lemma RevisionLengths()
    ensures 10 <= |Revision(1)| < |Revision(2)| == |Revision(3)|
    ensures Revision(2)[9] == '2' && Revision(3)[9] == '3'
  {
    assert Decimal(2) == "2" && Decimal(3) == "3";
  }

  lemma ConclusionLengths(stance: Stance)
    ensures |Conclusion(Supports)| <= |Conclusion(stance)|
  {
  }

  lemma CoreLengths(stance: Stance)
    ensures |Core(1, Supports)| < |Core(2, stance)| == |Core(3, stance)|
    ensures Core(2, stance) != Core(3, stance)
  {
    hide Conclusion, Revision;
    RevisionLengths();
    ConclusionLengths(stance);
    var n := |Conclusion(stance)| + 1 + 9;
    assert Core(2, stance)[n] == '2' && Core(3, stance)[n] == '3';
  }

  lemma SameFrame(head: string, a: string, b: string, tail: string)
    ensures |head + a + tail| == |head| + |a| + |tail|
    ensures a != b && |a| == |b| ==> head + a + tail != head + b + tail
  {
    assert (head + a + tail)[|head|..|head| + |a|] == a;
    if |a| == |b| {
      assert (head + b + tail)[|head|..|head| + |b|] == b;
    }
  }

  /** Earlier bodies of a record are different and not longer. */
  lemma BodiesGrow(system: SourceSystem, issue: string, tail: string, changed: bool, v: nat, w: nat)
    requires 1 <= v < w <= 3
    ensures var a, b := Body(system, issue, v, StanceOf(v, changed), tail),
                        Body(system, issue, w, StanceOf(w, changed), tail);
            a != b && |a| <= |b|
  {
    hide Conclusion, Revision, BodyHead;
    CoreLengths(StanceOf(2, changed));
    SameFrame(BodyHead(system, issue), Core(v, StanceOf(v, changed)), Core(w, StanceOf(w, changed)), tail);
    SameFrame(BodyHead(system, issue), Core(w, StanceOf(w, changed)), Core(v, StanceOf(v, changed)), tail);
  }

  lemma GeneratedVersion(o: CorpusOptions, i: nat, v: nat)
    requires ValidOptions(o) && v < VersionCountAt(i)
    ensures var r := RecordAt(o, i);
            && |r.versions| == VersionCountAt(i)
            && r.versions[v].body == Body(r.sourceSystem, ISSUES[IssueAt(o.seed, i)], v + 1,
                                          StanceOf(v + 1, i % 23 == 0),
                                          BodyTail(i, r.canonicalClientName, r.canonicalProjectName,
                                                   DuplicateMarkerAt(i)))
            && r.versions[v].stance == StanceOf(v + 1, i % 23 == 0)
            && r.versions[v].contentHashKey == ContentHash(r.versions[v].body)
  {
    hide SourceReference, IssueAt, Body, BodyTail, ClientName, ProjectName, DuplicateMarkerAt, SystemAt, VisibilityAt,
      VersionCountAt;
    hide ProjectIndexAt, CycleAt, ClientIndexAt, OrdinalAt, ProjectCount;
    var r := RecordAt(o, i);
    var made := BuildVersion(i, v + 1, r.sourceSystem, r.canonicalClientName, r.canonicalProjectName,
                             ISSUES[IssueAt(o.seed, i)], DuplicateMarkerAt(i), i % 23 == 0);
    assert r.versions[v] == made;
  }

  lemma ExternalAt(o: CorpusOptions, i: nat)
    requires ValidOptions(o)
    ensures RecordAt(o, i).external.index == i
    ensures RecordAt(o, i).sourceSystem == SOURCE_SYSTEMS[(ProjectIndexAt(o, i) + CycleAt(o, i)) % 5]
  {
    hide SourceReference, BuildVersion, ClientName, IssueAt, DuplicateAt, ProjectName, ClientIndexAt, OrdinalAt,
      VisibilityAt, ProjectCount, ProjectIndexAt, CycleAt;
  }

  // ---- Any record that descends from a generated one

  /** Different bodies, never getting shorter, each with the hash of its body. */
  ghost predicate BodiesDiffer(vs: seq<Version>) {
    && (forall i :: 0 <= i < |vs| ==> vs[i].contentHashKey == ContentHash(vs[i].body))
    && (forall i, j :: 0 <= i < j < |vs| ==> vs[i].body != vs[j].body && |vs[i].body| <= |vs[j].body|)
  }

  lemma GeneratedBodiesDiffer(o: CorpusOptions, i: nat)
    requires ValidOptions(o)
    ensures BodiesDiffer(RecordAt(o, i).versions)
  {
    hide RecordAt, Body, BodyTail, IssueAt, DuplicateMarkerAt, StanceOf;
    var r := RecordAt(o, i);
    GeneratedVersion(o, i, 0);
    forall v | 0 <= v < |r.versions|
      ensures r.versions[v].contentHashKey == ContentHash(r.versions[v].body)
    {
      GeneratedVersion(o, i, v);
    }
    forall v, w | 0 <= v < w < |r.versions|
      ensures r.versions[v].body != r.versions[w].body && |r.versions[v].body| <= |r.versions[w].body|
    {
      GeneratedVersion(o, i, v);
      GeneratedVersion(o, i, w);
      BodiesGrow(r.sourceSystem, ISSUES[IssueAt(o.seed, i)],
                 BodyTail(i, r.canonicalClientName, r.canonicalProjectName, DuplicateMarkerAt(i)), i % 23 == 0, v + 1,
                 w + 1);
    }
  }

  /** Updates only make bodies longer, so no version of a descendant repeats an earlier body. */
  lemma {:induction false} DescendantBodiesDiffer(base: Record, r: Record, n: nat)
    requires Descends(base, r) && BodiesDiffer(base.versions) && |base.versions| <= n <= |r.versions|
    ensures BodiesDiffer(r.versions[..n])
  {
    if n == |base.versions| {
      assert r.versions[..n] == base.versions;
    } else {
      DescendantBodiesDiffer(base, r, n - 1);
      assert Continues(r.versions[n - 2], r.versions[n - 1]);
      var d := r.versions[..n - 1];
      assert r.versions[..n] == d + [r.versions[n - 1]];
      forall i | 0 <= i < n - 1
        ensures |r.versions[i].body| < |r.versions[n - 1].body|
      {
        assert d[i] == r.versions[i] && d[n - 2] == r.versions[n - 2];
      }
    }
  }

  lemma VersionsDiffer(o: CorpusOptions, c: ScaleCorpus, i: nat)
    requires Grown(o, c) && i < |c.records|
    ensures BodiesDiffer(c.records[i].versions)
  {
    hide RecordAt, QuestionsAnswered, BodiesDiffer, Continues;
    assert Descends(RecordAt(o, i), c.records[i]);
    GeneratedBodiesDiffer(o, i);
    DescendantBodiesDiffer(RecordAt(o, i), c.records[i], |c.records[i].versions|);
    assert c.records[i].versions[..|c.records[i].versions|] == c.records[i].versions;
  }

  lemma ExternalsDiffer(o: CorpusOptions, c: ScaleCorpus, i: nat, j: nat)
    requires Grown(o, c) && i < j < |c.records|
    ensures c.records[i].external != c.records[j].external
  {
    hide RecordAt, QuestionsAnswered, Continues;
    assert Descends(RecordAt(o, i), c.records[i]) && Descends(RecordAt(o, j), c.records[j]);
    ExternalAt(o, i);
    ExternalAt(o, j);
  }
}
