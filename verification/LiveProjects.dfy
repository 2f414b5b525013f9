/** When every selected project has a live record, so that `generateScaleCorpus` does not fail. */
module LiveProjects {
  import opened Prelude
  import opened Corpus
  import opened Updates
  import opened Generator
  import opened Names

  function ProjectIdAt(o: CorpusOptions, index: nat): Id
    requires ValidOptions(o)
  {
    ProjectId(ProjectName(ClientIndexAt(o, index), OrdinalAt(o, index)))
  }

  lemma RecordFacts(o: CorpusOptions, i: nat)
    requires ValidOptions(o)
    ensures RecordAt(o, i).canonicalProjectId == ProjectIdAt(o, i) && (RecordAt(o, i).deleted <==> i % 41 == 0)
  {
    hide SourceReference, BuildVersion, ClientName, SystemAt, VisibilityAt, IssueAt, DuplicateAt, CycleAt;
  }

  lemma ProjectRepeats(o: CorpusOptions, i: nat)
    requires ValidOptions(o)
    ensures ProjectIdAt(o, i) == ProjectIdAt(o, i % ProjectCount(o)) ==
            ProjectIdAt(o, i % ProjectCount(o) + ProjectCount(o))
  {
    hide ProjectName;
    var p := ProjectCount(o);
    ModOf(i % p, p, 0);
    ModOf(i % p, p, 1);
  }

  lemma ModOf(r: nat, p: nat, k: nat)
    requires r < p
    ensures (r + k * p) % p == r && (r + k * p) / p == k
  {
    var x := r + k * p;
    DivideExactly(x, p, k, r);
    assert x == p * (x / p) + x % p;
  }

  lemma LiveAt(o: CorpusOptions, n: nat, i: nat)
    requires ValidOptions(o) && i < n && i % 41 != 0
    ensures HasLiveRecord(RecordsOf(o, n), ProjectIdAt(o, i))
  {
    hide RecordAt, ProjectIdAt;
    RecordFacts(o, i);
    var rs := RecordsOf(o, n);
    assert rs[i] == RecordAt(o, i);
    assert rs[i] in rs;
    ProjectRecordsMembers(rs, ProjectIdAt(o, i));
  }

  /** 41 divides at most one of two numbers whose distance it does not divide. */
  lemma OneOfTwo(x: nat, p: nat)
    requires p % 41 != 0
    ensures x % 41 != 0 || (x + p) % 41 != 0
  {
  }

  lemma SelectedAreProjects(o: CorpusOptions, rs: seq<Record>, p: Id)
    requires ValidOptions(o) && p in SelectedProjects(o, rs)
    ensures exists i :: 0 <= i < |rs| && rs[i].canonicalProjectId == p
  {
    var projects := Map(rs, ProjectOf);
    UniqueIsSet(projects);
    assert p in projects;
    var i :| 0 <= i < |projects| && projects[i] == p;
    assert rs[i].canonicalProjectId == p;
  }

  /** Two records a project and a project count that 41 does not divide are enough, whatever the other options. */
  lemma TwoCyclesAreLive(o: CorpusOptions)
    requires ValidOptions(o) && o.recordCount >= 2 * ProjectCount(o) && ProjectCount(o) % 41 != 0
    ensures ProjectsAreLive(o)
  {
    hide RecordAt, ProjectIdAt, SelectedProjects, HasLiveRecord, ProjectCount;
    var rs, p := RecordsOf(o, o.recordCount), ProjectCount(o);
    var selected := SelectedProjects(o, rs);
    forall s | 0 <= s < |selected|
      ensures HasLiveRecord(rs, selected[s])
    {
      SelectedAreProjects(o, rs, selected[s]);
      var i :| 0 <= i < |rs| && rs[i].canonicalProjectId == selected[s];
      assert rs[i] == RecordAt(o, i);
      RecordFacts(o, i);
      ProjectRepeats(o, i);
      OneOfTwo(i % p, p);
      if (i % p) % 41 != 0 {
        LiveAt(o, o.recordCount, i % p);
      } else {
        LiveAt(o, o.recordCount, i % p + p);
      }
    }
  }

  // ---- Which records share a project

  lemma TimesGrows(a: nat, b: nat, k: nat)
    ensures a >= b ==> k * a >= k * b
  {
    if a >= b {
      assert k * (a - b) >= 0;
    }
  }

  lemma InRange(x: nat, clients: nat, k: nat)
    requires k > 0 && x < clients * k
    ensures x / k < clients && x % k < k && x % (clients * k) == x && x == k * (x / k) + x % k
  {
    assert x == k * (x / k) + x % k;
    TimesGrows(x / k, clients, k);
    DivideExactly(x, clients * k, 0, x);
  }

  /** The project slot of a record in its cycle. */
  function SlotOf(o: CorpusOptions, i: nat): (r: nat)
    requires ValidOptions(o)
    ensures r < ProjectCount(o)
  {
    i % ProjectCount(o)
  }

  /** Project names repeat after 100 clients and after 4 projects of a client, so this is the first record with the
      project. */
  function FirstWith(o: CorpusOptions, i: nat): nat
    requires ValidOptions(o)
  {
    var k := o.projectsPerClient;
    (SlotOf(o, i) / k % 100) * k + SlotOf(o, i) % k % 4
  }

  predicate IsFirst(o: CorpusOptions, x: nat)
    requires ValidOptions(o)
  {
    x < ProjectCount(o) && ClientOf(o, x) < 100 && PlaceOf(o, x) < 4
  }

  /** The client of a slot, and the place of the project among the client's. */
  function ClientOf(o: CorpusOptions, slot: nat): nat
    requires ValidOptions(o)
  {
    slot / o.projectsPerClient
  }

  function PlaceOf(o: CorpusOptions, slot: nat): nat
    requires ValidOptions(o)
  {
    slot % o.projectsPerClient
  }

  /** The parts of a slot. */
  lemma SlotParts(o: CorpusOptions, i: nat)
    requires ValidOptions(o)
    ensures var k, r := o.projectsPerClient, SlotOf(o, i);
            r / k < o.clientCount && r % k < k && r == k * (r / k) + r % k && r % ProjectCount(o) == r <= i
  {
    InRange(SlotOf(o, i), o.clientCount, o.projectsPerClient);
    AtMostSelf(i, ProjectCount(o));
  }

  lemma AtMostSelf(i: nat, p: nat)
    requires p > 0
    ensures i % p <= i
  {
    assert i == p * (i / p) + i % p;
    assert p * (i / p) >= 0;
  }

  lemma CutParts(c: nat, d: nat, k: nat)
    requires d < k
    ensures var x := c % 100 * k + d % 4; x / k == c % 100 && x % k == d % 4 && x <= k * c + d
  {
    ModOf(d % 4, k, c % 100);
    TimesGrows(c, c % 100, k);
  }

  lemma FirstParts(o: CorpusOptions, i: nat)
    requires ValidOptions(o)
    ensures var k, x, r := o.projectsPerClient, FirstWith(o, i), SlotOf(o, i);
            && ClientOf(o, x) == ClientOf(o, r) % 100 && PlaceOf(o, x) == PlaceOf(o, r) % 4
            && x <= r <= i && x < ProjectCount(o) && PlaceOf(o, r) < k && ClientOf(o, r) < o.clientCount
  {
    hide SlotOf, ProjectCount;
    SlotParts(o, i);
    var k, r := o.projectsPerClient, SlotOf(o, i);
    CutParts(r / k, r % k, k);
  }

  /** Two records are about one project exactly when its first record is the same. */
  lemma SameProject(o: CorpusOptions, i: nat, j: nat)
    requires ValidOptions(o)
    ensures ProjectIdAt(o, i) == ProjectIdAt(o, j) <==> FirstWith(o, i) == FirstWith(o, j)
  {
    var k, r, s := o.projectsPerClient, SlotOf(o, i), SlotOf(o, j);
    SlotParts(o, i);
    SlotParts(o, j);
    ProjectNamesRepeat(r / k, r % k, s / k, s % k);
    FirstParts(o, i);
    FirstParts(o, j);
    hide ProjectName, ProjectCount;
  }

  lemma OwnSlot(o: CorpusOptions, x: nat)
    requires ValidOptions(o) && x < ProjectCount(o)
    ensures SlotOf(o, x) == x && x == o.projectsPerClient * ClientOf(o, x) + PlaceOf(o, x)
    ensures ClientOf(o, x) < o.clientCount && PlaceOf(o, x) < o.projectsPerClient
  {
    InRange(x, o.clientCount, o.projectsPerClient);
  }

  lemma FirstIsFirst(o: CorpusOptions, i: nat)
    requires ValidOptions(o)
    ensures IsFirst(o, FirstWith(o, i)) && FirstWith(o, FirstWith(o, i)) == FirstWith(o, i) <= i
    ensures IsFirst(o, i) <==> FirstWith(o, i) == i
  {
    FirstParts(o, i);
    var x := FirstWith(o, i);
    assert IsFirst(o, x);
    FirstKept(o, x);
    if IsFirst(o, i) {
      FirstKept(o, i);
    }
  }

  lemma FirstKept(o: CorpusOptions, x: nat)
    requires ValidOptions(o) && IsFirst(o, x)
    ensures FirstWith(o, x) == x
  {
    hide ProjectCount, SlotOf;
    OwnSlot(o, x);
  }

  // ---- The next record of a project

  /** How far the second record of a project is behind its first one. */
  function Gap(o: CorpusOptions, x: nat): nat
    requires ValidOptions(o)
  {
    GapOf(ClientOf(o, x), PlaceOf(o, x), o.projectsPerClient, o.clientCount, ProjectCount(o))
  }

  /** Names repeat 4 ordinals later if the client has that many projects, else 100 clients later, else in the next
      cycle. */
  function GapOf(client: nat, ordinal: nat, k: nat, clients: nat, cycle: nat): nat {
    if ordinal + 4 < k then 4 else if client + 100 < clients then 100 * k else cycle
  }

  lemma SlotIs(o: CorpusOptions, client: nat, ordinal: nat)
    requires ValidOptions(o) && client < o.clientCount && ordinal < o.projectsPerClient
    ensures var i := client * o.projectsPerClient + ordinal;
            SlotOf(o, i) == i && i / o.projectsPerClient == client && i % o.projectsPerClient == ordinal
  {
    var k := o.projectsPerClient;
    ModOf(ordinal, k, client);
    TimesGrows(o.clientCount, client + 1, k);
    assert k * (client + 1) == client * k + k;
    InRange(client * k + ordinal, o.clientCount, k);
  }

  lemma FirstOfParts(o: CorpusOptions, x: nat, client: nat, ordinal: nat)
    requires ValidOptions(o) && IsFirst(o, x) && client < o.clientCount && ordinal < o.projectsPerClient
    requires client % 100 == ClientOf(o, x) && ordinal % 4 == PlaceOf(o, x)
    ensures FirstWith(o, client * o.projectsPerClient + ordinal) == x
  {
    hide ProjectCount, SlotOf;
    SlotIs(o, client, ordinal);
    OwnSlot(o, x);
  }

  lemma NextRecord(o: CorpusOptions, x: nat)
    requires ValidOptions(o) && IsFirst(o, x)
    ensures FirstWith(o, x + Gap(o, x)) == x
  {
    hide FirstWith, SlotOf, ProjectCount;
    OwnSlot(o, x);
    var k := o.projectsPerClient;
    var c, d := ClientOf(o, x), PlaceOf(o, x);
    hide ClientOf, PlaceOf, IsFirst;
    if d + 4 < k {
      FirstOfParts(o, x, c, d + 4);
      assert x + 4 == c * k + (d + 4);
    } else if c + 100 < o.clientCount {
      FirstOfParts(o, x, c + 100, d);
      MoreClients(k, c, d);
    } else {
      NextCycle(o, x);
    }
  }

  lemma MoreClients(k: nat, c: nat, d: nat)
    ensures (c + 100) * k + d == k * c + d + 100 * k
  {
  }

  lemma NextCycle(o: CorpusOptions, x: nat)
    requires ValidOptions(o) && IsFirst(o, x)
    ensures FirstWith(o, x + ProjectCount(o)) == x
  {
    hide ProjectCount;
    ModOf(x, ProjectCount(o), 1);
    OwnSlot(o, x);
    assert SlotOf(o, x + ProjectCount(o)) == SlotOf(o, x);
    FirstKept(o, x);
  }

  /** A slot with the residues of an earlier one has a later ordinal, or the same ordinal of a client 100 later or
      more. */
  lemma LaterParts(k: nat, c: nat, d: nat, c': nat, d': nat)
    requires c' == c % 100 && d' == d % 4 && d < k && !(c == c' && d == d')
    ensures (d' + 4 <= d && k * c + d >= k * c' + d' + 4)
            || (d == d' && c' + 100 <= c && k * c + d >= k * c' + d' + 100 * k)
  {
    TimesGrows(c, c', k);
    if d == d' {
      TimesGrows(c, c' + 100, k);
      MoreClients(k, c', d');
    }
  }

  lemma LaterGap(k: nat, clients: nat, cycle: nat, c: nat, d: nat, c': nat, d': nat, r: nat, x: nat)
    requires c' == c % 100 && d' == d % 4 && d < k && c < clients
    requires r == k * c + d && x == k * c' + d' && r != x
    ensures r >= x + GapOf(c', d', k, clients, cycle)
    ensures d' + 4 < k || c' + 100 < clients
  {
    LaterParts(k, c, d, c', d');
    FourAtMost(k);
  }

  /** Within a cycle, a later slot of the same project is a gap away at least. */
  lemma LaterSlot(o: CorpusOptions, x: nat, r: nat)
    requires ValidOptions(o) && IsFirst(o, x) && r < ProjectCount(o) && FirstWith(o, r) == x && r != x
    ensures r >= x + Gap(o, x)
    ensures PlaceOf(o, x) + 4 < o.projectsPerClient || ClientOf(o, x) + 100 < o.clientCount
  {
    hide ProjectCount, SlotOf, FirstWith, GapOf, ClientOf, PlaceOf;
    FirstParts(o, r);
    OwnSlot(o, r);
    OwnSlot(o, x);
    var k := o.projectsPerClient;
    LaterGap(k, o.clientCount, ProjectCount(o), ClientOf(o, r), PlaceOf(o, r), ClientOf(o, x), PlaceOf(o, x), r, x);
  }

  lemma FourAtMost(k: nat)
    ensures k > 0 ==> 4 <= 100 * k
  {
  }

  lemma GapOfFits(client: nat, ordinal: nat, k: nat, clients: nat, cycle: nat)
    requires cycle == k * clients && clients >= 2 && k > 0 && ordinal < 4
    ensures var gap := GapOf(client, ordinal, k, clients, cycle);
            0 < gap <= cycle && (gap == cycle ==> ordinal + 4 >= k && client + 100 >= clients)
            && (gap % 41 == 0 ==> gap == cycle)
  {
    TimesGrows(clients, 2, k);
    if ordinal + 4 >= k && client + 100 < clients {
      TimesGrows(clients, 101, k);
      assert k < 8;
    }
  }

  /** No gap is longer than a cycle, and only the last kind is as long or divisible by 41. */
  lemma GapFits(o: CorpusOptions, x: nat)
    requires ValidOptions(o) && IsFirst(o, x)
    ensures 0 < Gap(o, x) <= ProjectCount(o) && (Gap(o, x) % 41 == 0 ==> Gap(o, x) == ProjectCount(o))
    ensures Gap(o, x) == ProjectCount(o) ==>
              PlaceOf(o, x) + 4 >= o.projectsPerClient && ClientOf(o, x) + 100 >= o.clientCount
  {
    hide GapOf, ClientOf, PlaceOf;
    GapOfFits(ClientOf(o, x), PlaceOf(o, x), o.projectsPerClient, o.clientCount, ProjectCount(o));
  }

  lemma Cycles(i: nat, p: nat, q: nat, r: nat, x: nat, gap: nat)
    requires i == p * q + r && r >= x && gap <= p && i != x
    requires r != x ==> r >= x + gap && gap != p
    ensures i >= x + gap && (gap == p ==> i == p * q + x)
  {
    if q == 0 {
      assert p * q == 0;
    } else {
      TimesGrows(q, 1, p);
    }
  }

  /** Every other record of a project is at least a gap after the first; if the gap is a cycle, a number of cycles after
      it. */
  lemma OtherRecord(o: CorpusOptions, x: nat, i: nat) returns (q: nat)
    requires ValidOptions(o) && IsFirst(o, x) && FirstWith(o, i) == x && i != x
    ensures i >= x + Gap(o, x)
    ensures Gap(o, x) == ProjectCount(o) ==> i == ProjectCount(o) * q + x
  {
    hide Gap, ProjectCount, FirstWith, ClientOf, PlaceOf, IsFirst;
    var p, r := ProjectCount(o), SlotOf(o, i);
    q := i / p;
    DivMod(i, p);
    FirstParts(o, i);
    GapFits(o, x);
    SlotKept(o, i);
    if r != x {
      LaterSlot(o, x, r);
    }
    Cycles(i, p, q, r, x, Gap(o, x));
  }

  lemma SlotKept(o: CorpusOptions, i: nat)
    requires ValidOptions(o)
    ensures FirstWith(o, SlotOf(o, i)) == FirstWith(o, i)
  {
    SlotParts(o, i);
    assert SlotOf(o, SlotOf(o, i)) == SlotOf(o, i);
    hide SlotOf, ProjectCount;
  }

  lemma DivMod(i: nat, p: nat)
    requires p > 0
    ensures i == p * (i / p) + i % p
  {
  }

  // ---- The selected projects

  lemma ProjectsGrow(o: CorpusOptions, n: nat)
    requires ValidOptions(o)
    ensures Map(RecordsOf(o, n + 1), ProjectOf) == Map(RecordsOf(o, n), ProjectOf) + [ProjectIdAt(o, n)]
  {
    hide RecordAt, ProjectIdAt;
    RecordFacts(o, n);
  }

  lemma UniqueStep<T>(s: seq<T>, x: T)
    ensures Unique(s + [x]) == if x in Unique(s) then Unique(s) else Unique(s) + [x]
  {
    UniqueIsSet(s);
    assert DropLast(s + [x]) == s;
  }

  /** The first records of projects among the first `n`. */
  function Firsts(o: CorpusOptions, n: nat): (r: seq<nat>)
    requires ValidOptions(o)
    ensures |r| <= n && forall j :: 0 <= j < |r| ==> r[j] < n && IsFirst(o, r[j])
  {
    if n == 0 then [] else Firsts(o, n - 1) + if IsFirst(o, n - 1) then [n - 1] else []
  }

  lemma {:induction false} FirstsHas(o: CorpusOptions, n: nat, x: nat)
    requires ValidOptions(o) && x < n && IsFirst(o, x)
    ensures x in Firsts(o, n)
  {
    if x < n - 1 {
      FirstsHas(o, n - 1, x);
    }
  }

  /** The projects of the listed records. */
  function ProjectsAt(o: CorpusOptions, firsts: seq<nat>): (r: seq<Id>)
    requires ValidOptions(o)
    ensures |r| == |firsts| && forall j :: 0 <= j < |r| ==> r[j] == ProjectIdAt(o, firsts[j])
  {
    seq(|firsts|, j requires 0 <= j < |firsts| => ProjectIdAt(o, firsts[j]))
  }

  lemma KnownProject(o: CorpusOptions, n: nat)
    requires ValidOptions(o)
    ensures ProjectIdAt(o, n) in ProjectsAt(o, Firsts(o, n)) <==> !IsFirst(o, n)
  {
    hide ProjectIdAt, ProjectCount, FirstWith, IsFirst;
    var firsts := Firsts(o, n);
    var x := FirstWith(o, n);
    FirstIsFirst(o, n);
    if !IsFirst(o, n) {
      FirstsHas(o, n, x);
      var j :| 0 <= j < |firsts| && firsts[j] == x;
      SameProject(o, n, x);
      assert ProjectsAt(o, firsts)[j] == ProjectIdAt(o, n);
    } else if ProjectIdAt(o, n) in ProjectsAt(o, firsts) {
      var j :| 0 <= j < |firsts| && ProjectsAt(o, firsts)[j] == ProjectIdAt(o, n);
      SameProject(o, n, firsts[j]);
      FirstIsFirst(o, firsts[j]);
    }
  }

  lemma OneMoreProject(o: CorpusOptions, firsts: seq<nat>, x: nat)
    requires ValidOptions(o)
    ensures ProjectsAt(o, firsts + [x]) == ProjectsAt(o, firsts) + [ProjectIdAt(o, x)]
    ensures ProjectsAt(o, firsts + []) == ProjectsAt(o, firsts)
  {
    assert firsts + [] == firsts;
  }

  /** The distinct projects of the records, in order, are those of their first records. */
  lemma {:induction false} UniqueProjects(o: CorpusOptions, n: nat)
    requires ValidOptions(o)
    ensures Unique(Map(RecordsOf(o, n), ProjectOf)) == ProjectsAt(o, Firsts(o, n))
  {
    hide ProjectIdAt, ProjectCount, RecordsOf, Unique, IsFirst, ProjectsAt;
    if n > 0 {
      UniqueProjects(o, n - 1);
      ProjectsGrow(o, n - 1);
      UniqueStep(Map(RecordsOf(o, n - 1), ProjectOf), ProjectIdAt(o, n - 1));
      KnownProject(o, n - 1);
      OneMoreProject(o, Firsts(o, n - 1), n - 1);
    } else {
      NoRecords(o);
    }
  }

  lemma NoRecords(o: CorpusOptions)
    requires ValidOptions(o)
    ensures RecordsOf(o, 0) == [] && Unique(Map(RecordsOf(o, 0), ProjectOf)) == []
  {
  }

  /** The first records of the projects that questions are asked about. */
  function SelectedFirsts(o: CorpusOptions): seq<nat>
    requires ValidOptions(o)
  {
    SliceTo(Firsts(o, o.recordCount), Min(o.questionProjectCount, ProjectCount(o)))
  }

  lemma SelectedAre(o: CorpusOptions)
    requires ValidOptions(o)
    ensures SelectedProjects(o, RecordsOf(o, o.recordCount)) == ProjectsAt(o, SelectedFirsts(o))
    ensures forall j :: 0 <= j < |SelectedFirsts(o)| ==>
                          SelectedFirsts(o)[j] < o.recordCount && IsFirst(o, SelectedFirsts(o)[j])
  {
    hide RecordAt, ProjectIdAt, ProjectCount, RecordsOf, IsFirst;
    UniqueProjects(o, o.recordCount);
  }

  // ---- The exact condition

  /** The second record of the project that starts at `x` exists and is not deleted together with the first. */
  predicate LivesAgain(o: CorpusOptions, x: nat)
    requires ValidOptions(o)
  {
    Gap(o, x) % 41 != 0 && x + Gap(o, x) < o.recordCount
  }

  /** Every selected project whose first record is deleted has a second one. */
  predicate EnoughRecords(o: CorpusOptions)
    requires ValidOptions(o)
  {
    forall x :: x in SelectedFirsts(o) && x % 41 == 0 ==> LivesAgain(o, x)
  }

  lemma LiveRecordIndex(o: CorpusOptions, n: nat, x: nat) returns (i: nat)
    requires ValidOptions(o) && IsFirst(o, x) && HasLiveRecord(RecordsOf(o, n), ProjectIdAt(o, x))
    ensures i < n && FirstWith(o, i) == x && i % 41 != 0
  {
    hide RecordAt, ProjectIdAt, ProjectCount, FirstWith, IsFirst;
    var rs := RecordsOf(o, n);
    var live := ProjectRecords(rs, ProjectIdAt(o, x));
    ProjectRecordsMembers(rs, ProjectIdAt(o, x));
    assert live[0] in live && live[0] in rs;
    i :| 0 <= i < |rs| && rs[i] == live[0];
    RecordFacts(o, i);
    SameProject(o, i, x);
    FirstIsFirst(o, x);
  }

  lemma LiveExactly(o: CorpusOptions, x: nat)
    requires ValidOptions(o) && IsFirst(o, x) && x < o.recordCount
    ensures HasLiveRecord(RecordsOf(o, o.recordCount), ProjectIdAt(o, x)) <==> x % 41 != 0 || LivesAgain(o, x)
  {
    hide RecordsOf, ProjectIdAt, HasLiveRecord, ProjectCount, IsFirst, FirstWith, Gap;
    if x % 41 != 0 {
      LiveAt(o, o.recordCount, x);
    } else if LivesAgain(o, x) {
      NextRecord(o, x);
      FirstIsFirst(o, x);
      SameProject(o, x + Gap(o, x), x);
      LiveAt(o, o.recordCount, x + Gap(o, x));
    } else if HasLiveRecord(RecordsOf(o, o.recordCount), ProjectIdAt(o, x)) {
      var i := LiveRecordIndex(o, o.recordCount, x);
      var q := OtherRecord(o, x, i);
      GapFits(o, x);
      assert Gap(o, x) % 41 == 0;
      Multiple(ProjectCount(o) / 41, q, x / 41);
    }
  }

  lemma Multiple(m: nat, q: nat, y: nat)
    ensures ((41 * m) * q + 41 * y) % 41 == 0
  {
    assert (41 * m) * q + 41 * y == 41 * (m * q + y);
  }

  /** The generator succeeds exactly when there are enough records, for all options it accepts. */
  lemma LiveExactlyWhenEnough(o: CorpusOptions)
    requires ValidOptions(o)
    ensures ProjectsAreLive(o) <==> EnoughRecords(o)
  {
    hide ProjectIdAt, HasLiveRecord, RecordsOf, SelectedProjects, ProjectCount, SelectedFirsts, LivesAgain, IsFirst;
    SelectedAre(o);
    var rs, firsts := RecordsOf(o, o.recordCount), SelectedFirsts(o);
    forall j | 0 <= j < |firsts|
      ensures HasLiveRecord(rs, SelectedProjects(o, rs)[j]) <==> firsts[j] % 41 != 0 || LivesAgain(o, firsts[j])
    {
      LiveExactly(o, firsts[j]);
    }
    if ProjectsAreLive(o) {
      forall x | x in firsts && x % 41 == 0
        ensures LivesAgain(o, x)
      {
        var j :| 0 <= j < |firsts| && firsts[j] == x;
        assert HasLiveRecord(rs, SelectedProjects(o, rs)[j]);
      }
    }
  }

  // ---- The defaults

  lemma {:induction false} AllAreFirst(o: CorpusOptions, n: nat)
    requires ValidOptions(o) && o.clientCount <= 100 && o.projectsPerClient <= 4 && n <= ProjectCount(o)
    ensures |Firsts(o, n)| == n && forall j :: 0 <= j < n ==> Firsts(o, n)[j] == j
  {
    if n > 0 {
      AllAreFirst(o, n - 1);
      InRange(n - 1, o.clientCount, o.projectsPerClient);
    }
  }

  lemma {:induction false} FirstsStart(o: CorpusOptions, n: nat, m: nat)
    requires ValidOptions(o) && m <= n
    ensures Firsts(o, m) <= Firsts(o, n)
  {
    hide IsFirst;
    if m < n {
      FirstsStart(o, n - 1, m);
      assert Firsts(o, n - 1) <= Firsts(o, n);
    }
  }

  /** With the default 50 clients, 4 projects each and 25 question projects, the 100 records that the option check
      allows are too few: the generator needs 201. */
  lemma DefaultsNeed201Records(recordCount: int, seed: int)
    requires recordCount >= 100
    ensures ProjectsAreLive(CorpusOptions(recordCount, 50, 4, 25, seed)) <==> recordCount > 200
  {
    hide ProjectsAreLive, IsFirst, Firsts;
    var o := CorpusOptions(recordCount, 50, 4, 25, seed);
    LiveExactlyWhenEnough(o);
    AllAreFirst(o, 100);
    FirstsStart(o, recordCount, 100);
    var firsts := SelectedFirsts(o);
    assert |firsts| == 25;
    assert forall j :: 0 <= j < 25 ==> firsts[j] == Firsts(o, 100)[j] == j;
    assert firsts[0] == 0 && 0 in firsts;
    assert Gap(o, 0) == 200;
  }
}
