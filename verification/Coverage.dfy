/** How the generator spreads a project's records over source systems and visibilities. */
module Coverage {
  import opened Corpus
  import opened Generator
  import opened LiveProjects

  lemma Reduce(k: nat)
    ensures k % 20 % 5 == k % 5 && k % 20 % 4 == k % 4
  {
    var q, r := k / 20, k % 20;
    ModOf(r % 5, 5, 4 * q + r / 5);
    ModOf(r % 4, 4, 5 * q + r / 4);
  }

  lemma SmallRemainders(r: nat, s: nat, v: nat)
    requires r < 20 && s < 5 && v < 4
    ensures r == (16 * s + 5 * v) % 20 <==> r % 5 == s && r % 4 == v
  {
    assert s == 0 || s == 1 || s == 2 || s == 3 || s == 4;
    assert v == 0 || v == 1 || v == 2 || v == 3;
  }

  lemma Remainders(k: nat, s: nat, v: nat)
    requires s < 5 && v < 4
    ensures k % 20 == (16 * s + 5 * v) % 20 <==> k % 5 == s && k % 4 == v
  {
    Reduce(k);
    SmallRemainders(k % 20, s, v);
  }

  lemma Place(k: nat, t: nat) returns (d: nat)
    requires t < 20
    ensures d < 20 && (k + d) % 20 == t
  {
    d := (t + 20 - k % 20) % 20;
  }

  lemma PlaceIsUnique(k: nat, d: nat, e: nat)
    requires d < 20 && e < 20 && (k + d) % 20 == (k + e) % 20
    ensures d == e
  {
  }

  /** One record for each pair of source system and visibility among any 20 consecutive records of a project. */
  predicate HasPair(o: CorpusOptions, project: nat, cycle: nat, system: SourceSystem, visibility: Visibility)
    requires ValidOptions(o)
  {
    var r := RecordAt(o, cycle * ProjectCount(o) + project);
    r.sourceSystem == system && r.visibility == visibility
  }

  lemma PairOf(o: CorpusOptions, project: nat, cycle: nat)
    requires ValidOptions(o) && project < ProjectCount(o)
    ensures var r := RecordAt(o, cycle * ProjectCount(o) + project);
            r.sourceSystem == SystemAt(project, cycle) && r.visibility == VisibilityAt(project, cycle)
  {
    hide SourceReference, BuildVersion, ClientName, IssueAt, DuplicateAt, ProjectName, ClientIndexAt, OrdinalAt,
      SystemAt, VisibilityAt, ProjectCount;
    ModOf(project, ProjectCount(o), cycle);
  }

  function SystemNumber(system: SourceSystem): nat {
    match system case Research => 0 case Meetings => 1 case Crm => 2 case Documents => 3 case Messages => 4
  }

  function VisibilityNumber(visibility: Visibility): nat {
    match visibility case Everyone => 0 case Internal => 1 case AlexOnly => 2 case JamieOnly => 3
  }

  /** The remainder of project plus cycle, modulo 20, at which a pair occurs. */
  function PairNumber(system: SourceSystem, visibility: Visibility): (r: nat)
    ensures r < 20
  {
    (16 * SystemNumber(system) + 5 * VisibilityNumber(visibility)) % 20
  }

  lemma NumbersName(k: nat, system: SourceSystem, visibility: Visibility)
    ensures SOURCE_SYSTEMS[k % 5] == system <==> k % 5 == SystemNumber(system)
    ensures VISIBILITIES[k % 4] == visibility <==> k % 4 == VisibilityNumber(visibility)
  {
    assert SOURCE_SYSTEMS[SystemNumber(system)] == system && VISIBILITIES[VisibilityNumber(visibility)] == visibility;
    var i, j := k % 5, k % 4;
    assert i == 0 || i == 1 || i == 2 || i == 3 || i == 4;
    assert j == 0 || j == 1 || j == 2 || j == 3;
  }

  lemma PairAtNumber(o: CorpusOptions, project: nat, cycle: nat, system: SourceSystem, visibility: Visibility)
    requires ValidOptions(o) && project < ProjectCount(o)
    ensures HasPair(o, project, cycle, system, visibility) <==> (project + cycle) % 20 == PairNumber(system, visibility)
  {
    hide RecordAt, ProjectCount, SystemNumber, VisibilityNumber;
    PairOf(o, project, cycle);
    NumbersName(project + cycle, system, visibility);
    NumbersInRange(system, visibility);
    Remainders(project + cycle, SystemNumber(system), VisibilityNumber(visibility));
  }

  lemma NumbersInRange(system: SourceSystem, visibility: Visibility)
    ensures SystemNumber(system) < 5 && VisibilityNumber(visibility) < 4
  {
  }

  /** Any 20 consecutive records of a project hold each pair of source system and visibility exactly once. */
  lemma CoversEveryPair(o: CorpusOptions, project: nat, start: nat, system: SourceSystem,
                        visibility: Visibility) returns (cycle: nat)
    requires ValidOptions(o) && project < ProjectCount(o)
    ensures start <= cycle < start + 20 && HasPair(o, project, cycle, system, visibility)
    ensures forall c :: start <= c < start + 20 && HasPair(o, project, c, system, visibility) ==> c == cycle
  {
    hide HasPair, ProjectCount, PairNumber;
    var d := Place(project + start, PairNumber(system, visibility));
    cycle := start + d;
    assert project + cycle == project + start + d;
    PairAtNumber(o, project, cycle, system, visibility);
    forall c | start <= c < start + 20 && HasPair(o, project, c, system, visibility)
      ensures c == cycle
    {
      PairAtNumber(o, project, c, system, visibility);
      assert project + c == project + start + (c - start);
      PlaceIsUnique(project + start, d, c - start);
    }
  }
}
