/** Which projects a generated corpus asks about, who asks, and in which order the answers stand. */
module QuestionLaws {
  import opened Prelude
  import opened Corpus
  import opened Updates
  import opened UpdateLaws
  import opened Generator
  import opened Permissions

  // ---- The projects

  /** The places of the first record of every project, in order. */
  ghost predicate FirstOfEach(rs: seq<Record>, at: seq<nat>) {
    && Increasing(at)
    && (forall j :: 0 <= j < |at| ==> at[j] < |rs|)
    && (forall j, i: nat :: 0 <= j < |at| && i < at[j] ==> rs[i].canonicalProjectId != rs[at[j]].canonicalProjectId)
    && (forall r :: r in rs ==> exists j :: 0 <= j < |at| && rs[at[j]].canonicalProjectId == r.canonicalProjectId)
  }

  /** The places of the first occurrences, in order. */
  ghost predicate FirstPlacesOf<T>(s: seq<T>, firsts: seq<T>, at: seq<nat>) {
    && Increasing(at) && |at| == |firsts|
    && (forall j :: 0 <= j < |at| ==> at[j] < |s| && s[at[j]] == firsts[j])
    && (forall j, i: nat :: 0 <= j < |at| && i < at[j] ==> s[i] != firsts[j])
  }

  lemma {:induction false} UniquePlaces<T(!new)>(s: seq<T>) returns (at: seq<nat>)
    ensures FirstPlacesOf(s, Unique(s), at)
    ensures forall x :: x in s <==> x in Unique(s)
  {
    if s == [] {
      at := [];
    } else {
      var d, x := DropLast(s), Last(s);
      at := UniquePlaces(d);
      assert s == d + [x];
      OneElementMore(d, Unique(d), at, x);
      if x !in d {
        at := at + [|d|];
      }
    }
  }

  lemma OneElementMore<T>(s: seq<T>, firsts: seq<T>, at: seq<nat>, x: T)
    requires FirstPlacesOf(s, firsts, at)
    ensures FirstPlacesOf(s + [x], firsts, at)
    ensures x !in s ==> FirstPlacesOf(s + [x], firsts + [x], at + [|s|])
  {
    var more := at + [|s|];
    if x !in s {
      forall j, i: nat | 0 <= j < |more| && i < more[j]
        ensures (s + [x])[i] != (firsts + [x])[j]
      {
        if j == |at| {
          assert s[i] in s;
        }
      }
    }
  }

  lemma UniqueIsFirstOfEach(rs: seq<Record>) returns (at: seq<nat>)
    ensures FirstOfEach(rs, at) && |Unique(Map(rs, ProjectOf))| == |at|
    ensures forall j :: 0 <= j < |at| ==> Unique(Map(rs, ProjectOf))[j] == rs[at[j]].canonicalProjectId
  {
    hide Unique;
    var projects := Map(rs, ProjectOf);
    at := UniquePlaces(projects);
    forall r | r in rs
      ensures exists j :: 0 <= j < |at| && rs[at[j]].canonicalProjectId == r.canonicalProjectId
    {
      var i :| 0 <= i < |rs| && rs[i] == r;
      assert projects[i] in Unique(projects);
      var j :| 0 <= j < |at| && Unique(projects)[j] == projects[i];
      assert projects[at[j]] == projects[i];
    }
    forall j, i: nat | 0 <= j < |at| && i < at[j]
      ensures rs[i].canonicalProjectId != rs[at[j]].canonicalProjectId
    {
      assert projects[i] != Unique(projects)[j];
    }
  }

  // ---- The questions

  lemma {:induction false} ActorsInTurn(rs: seq<Record>, projects: seq<Id>)
    requires forall i :: 0 <= i < |projects| ==> HasLiveRecord(rs, projects[i])
    ensures |ExactQuestions(rs, projects)| == 3 * |projects|
    ensures forall n :: 0 <= n < 3 * |projects| ==>
                          ExactQuestions(rs, projects)[n] == ExactQuestion(rs, projects[n / 3], ACTORS[n % 3])
  {
    hide ExactQuestion, HasLiveRecord;
    if projects != [] {
      var d, own := DropLast(projects), ProjectQuestions(rs, Last(projects));
      ActorsInTurn(rs, d);
      assert ExactQuestions(rs, projects) == ExactQuestions(rs, d) + own;
      assert forall a :: 0 <= a < 3 ==> own[a] == ExactQuestion(rs, Last(projects), ACTORS[a]);
    }
  }

  /** How many of `n` projects are asked about: `slice(0, m)` leaves out the last `-m` for a negative `m`. */
  function AskedCount(o: CorpusOptions, n: nat): nat {
    var all := o.clientCount * o.projectsPerClient;
    var m := if o.questionProjectCount < all then o.questionProjectCount else all;
    if m >= n then n else if m >= 0 then m else if n + m > 0 then n + m else 0
  }

  /** Project by project in the order of their first records, each of the three actors asks one question. */
  lemma GeneratedQuestionsAre(o: CorpusOptions) returns (at: seq<nat>)
    requires ValidOptions(o) && ProjectsAreLive(o)
    ensures FirstOfEach(CorpusOf(o).records, at)
    ensures var c := CorpusOf(o);
            && |c.questions| == 3 * AskedCount(o, |at|)
            && forall n :: 0 <= n < |c.questions| ==>
                             && c.questions[n].canonicalProjectId == c.records[at[n / 3]].canonicalProjectId
                             && c.questions[n].actor == [Alex, Jamie, Morgan][n % 3]
  {
    hide RecordsOf, HasLiveRecord, ExactQuestions, EvidenceIds, ProjectRecords, Unique, Map;
    var rs := RecordsOf(o, o.recordCount);
    at := UniqueIsFirstOfEach(rs);
    SelectedCount(o, rs);
    ActorsInTurn(rs, SelectedProjects(o, rs));
  }

  lemma SelectedCount(o: CorpusOptions, rs: seq<Record>)
    requires ValidOptions(o)
    ensures var all, selected := Unique(Map(rs, ProjectOf)), SelectedProjects(o, rs);
            |selected| == AskedCount(o, |all|) <= |all| && forall j :: 0 <= j < |selected| ==> selected[j] == all[j]
  {
    hide Unique;
  }

  // ---- The answers

  lemma {:induction false} FilterBoth(rs: seq<Record>, p: Record -> bool, q: Record -> bool, both: Record -> bool)
    requires forall r :: both(r) <==> p(r) && q(r)
    ensures Filter(Filter(rs, p), q) == Filter(rs, both)
  {
    if rs != [] {
      FilterBoth(DropLast(rs), p, q, both);
    }
  }

  /** Expected, respectively forbidden, are the live records of the project that the grants open to the actor,
      respectively do not, each once and in the order of the records. */
  lemma EvidenceInOrder(rs: seq<Record>, project: Id, actor: Actor, readable: bool) returns (at: seq<nat>)
    ensures Increasing(at) && |EvidenceIds(rs, project, actor, readable)| == |at|
    ensures forall i :: 0 <= i < |at| ==> at[i] < |rs| && EvidenceIds(rs, project, actor, readable)[i] == rs[at[i]].id
    ensures forall k: nat :: k < |rs| ==>
                               (k in at <==>
                                && rs[k].canonicalProjectId == project && !rs[k].deleted
                                && CanAccessScope(UserOf(actor), rs[k].visibility) == readable)
  {
    var p := (r: Record) => r.canonicalProjectId == project && !r.deleted;
    var q := (r: Record) => CanRead(actor, r.visibility) == readable;
    var both := (r: Record) => p(r) && q(r);
    FilterBoth(rs, p, q, both);
    at := FilterPlaces(rs, both);
    forall v: Visibility
      ensures CanRead(actor, v) <==> CanAccessScope(UserOf(actor), v)
    {
      ReadIsGranted(actor, v);
    }
    hide CanRead, CanAccessScope, Filter;
  }
}
