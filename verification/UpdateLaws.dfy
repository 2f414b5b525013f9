/** Which records an update batch takes, and what becomes of them, place by place. */
module UpdateLaws {
  import opened Prelude
  import opened Corpus
  import opened Text
  import opened Updates
  import opened Transformers
  import opened Lineage

  // ---- The first live records

  ghost predicate Increasing(at: seq<nat>) {
    forall i, j :: 0 <= i < j < |at| ==> at[i] < at[j]
  }

  /** The places of the kept elements, in order. */
  ghost predicate PlacesOf(s: seq<Record>, p: Record -> bool, kept: seq<Record>, at: seq<nat>) {
    && |at| == |kept| && Increasing(at)
    && (forall i :: 0 <= i < |at| ==> at[i] < |s| && p(s[at[i]]) && kept[i] == s[at[i]])
    && (forall k: nat :: k < |s| && p(s[k]) ==> k in at)
  }

  lemma OnePlaceMore(s: seq<Record>, x: Record, p: Record -> bool, kept: seq<Record>, at: seq<nat>)
    requires PlacesOf(s, p, kept, at)
    ensures p(x) ==> PlacesOf(s + [x], p, kept + [x], at + [|s|])
    ensures !p(x) ==> PlacesOf(s + [x], p, kept, at)
  {
    var t := s + [x];
    if p(x) {
      var more := at + [|s|];
      forall k: nat | k < |t| && p(t[k])
        ensures k in more
      {
        if k < |s| {
          assert t[k] == s[k] && k in at;
        }
      }
    } else {
      forall k: nat | k < |t| && p(t[k])
        ensures k in at
      {
        assert t[k] == s[k];
      }
    }
  }

  lemma {:induction false} FilterPlaces(s: seq<Record>, p: Record -> bool) returns (at: seq<nat>)
    ensures PlacesOf(s, p, Filter(s, p), at)
  {
    if s == [] {
      at := [];
    } else {
      var d, x := DropLast(s), Last(s);
      assert s == d + [x];
      at := FilterPlaces(d, p);
      OnePlaceMore(d, x, p, Filter(d, p), at);
      if p(x) {
        at := at + [|d|];
      }
    }
  }

  /** The places are those of the first live records: increasing, live, and without a live one left out in between. */
  ghost predicate FirstLive(rs: seq<Record>, at: seq<nat>) {
    && Increasing(at)
    && (forall i :: 0 <= i < |at| ==> at[i] < |rs| && !rs[at[i]].deleted)
    && (forall k: nat, i :: k < |rs| && !rs[k].deleted && 0 <= i < |at| && k <= at[i] ==> k in at)
  }

  lemma FirstPlaces(rs: seq<Record>, all: seq<nat>, n: nat)
    requires n <= |all| && Increasing(all)
    requires forall i :: 0 <= i < |all| ==> all[i] < |rs| && !rs[all[i]].deleted
    requires forall k: nat :: k < |rs| && !rs[k].deleted ==> k in all
    ensures FirstLive(rs, all[..n])
  {
    forall k: nat, i | k < |rs| && !rs[k].deleted && 0 <= i < n && k <= all[i]
      ensures k in all[..n]
    {
      var j :| 0 <= j < |all| && all[j] == k;
      assert j <= i;
      assert all[..n][j] == k;
    }
  }

  // ---- What becomes of them

  /** One more version: the next number, a year later, with the same stance, whose text continues the previous one and
      names the project, and whose title names it too. */
  ghost predicate Revised(r: Record, s: Record) {
    && s.versions != [] && s == r.(versions := r.versions + [Last(s.versions)])
    && var v := Last(s.versions);
    && Continues(Latest(r), v)
    && Contains(v.title, r.canonicalProjectName) && Contains(v.body, r.canonicalProjectName)
  }

  lemma NextIsRevision(r: Record)
    ensures Revised(r, r.(versions := r.versions + [NextVersion(r)]))
  {
    hide Contains, Continues;
    NextContinuesLatest(r);
    var v, s := NextVersion(r), r.(versions := r.versions + [NextVersion(r)]);
    assert Last(s.versions) == v;
    var digits := Decimal(if v.version < 0 then 0 else v.version);
    var name, rest := r.canonicalProjectName, ": incremental evidence refresh (v" + digits + ")";
    ContainsItself(name);
    Appended(name, rest);
    assert v.title == name + rest;
    var head := Latest(r).body + "\n\nIncremental benchmark revision " + digits
    + " confirms the current interpretation for ";
    Appended(head, name);
    Appended(head + name, ".");
    assert v.body == head + name + ".";
  }

  lemma NextContinuesLatest(r: Record)
    ensures Continues(Latest(r), NextVersion(r))
  {
    var latest, next := Latest(r), NextVersion(r);
    assert next.body[..|latest.body|] == latest.body;
    if next.version >= 0 {
      var head, digits := r.canonicalProjectName + ": incremental evidence refresh ", Decimal(next.version);
      EndOfTitle(head, digits);
      assert next.title == head + "(v" + digits + ")";
    }
  }

  lemma {:induction false} DeletedCounted(rs: seq<Record>, every: nat)
    requires every > 0 && forall i :: 0 <= i < |rs| ==> !rs[i].deleted
    ensures |Filter(UpdatedRecords(rs, every), IsDeleted)| == DeletionCount(|rs|, every)
  {
    if rs != [] {
      DeletedCounted(DropLast(rs), every);
      assert DropLast(UpdatedRecords(rs, every)) == UpdatedRecords(DropLast(rs), every);
    }
  }

  /** A batch takes the first live records in order, deletes every so many of them, beginning with the first, and
      revises the others; it counts both; and the updated corpus has the batch's records in their places and all other
      records as they were. */
  lemma BatchIs(c: ScaleCorpus, n: int, every: int) returns (at: seq<nat>)
    requires DistinctIds(c.records) && ValidUpdate(c, n, every)
    ensures var b := BatchFor(c, n, every);
            && |at| == |b.records| == n && FirstLive(c.records, at) && |b.corpus.records| == |c.records|
            && (forall i :: 0 <= i < n ==> b.corpus.records[at[i]] == b.records[i])
            && (forall i :: 0 <= i < n ==> if i % every == 0 then b.records[i] == c.records[at[i]].(deleted := true)
                              else Revised(c.records[at[i]], b.records[i]))
            && (forall k: nat :: k < |c.records| && k !in at ==> b.corpus.records[k] == c.records[k])
            && b.deletions == |Filter(b.records, IsDeleted)| && b.revisions == n - b.deletions
  {
    hide Revised, Filter, NextVersion;
    var all := FilterPlaces(c.records, IsLive);
    at := all[..n];
    FirstPlaces(c.records, all, n);
    var bs := BatchRecords(c, n, every);
    BatchPlaces(c, n, every, at);
    ReplacedPlaces(c.records, bs, at);
    DeletedCounted(Eligible(c)[..n], every);
  }

  lemma BatchPlaces(c: ScaleCorpus, n: int, every: int, at: seq<nat>)
    requires ValidUpdate(c, n, every) && |at| == n
    requires forall i :: 0 <= i < n ==> at[i] < |c.records| && Eligible(c)[i] == c.records[at[i]]
    ensures var bs := BatchRecords(c, n, every);
            forall i :: 0 <= i < n ==>
                          && bs[i].id == c.records[at[i]].id
                          && if i % every == 0 then bs[i] == c.records[at[i]].(deleted := true)
                             else Revised(c.records[at[i]], bs[i])
  {
    hide Revised, Filter, NextVersion;
    forall i | 0 <= i < n
      ensures i % every != 0 ==> Revised(c.records[at[i]], BatchRecords(c, n, every)[i])
    {
      NextIsRevision(c.records[at[i]]);
    }
  }

  lemma ReplacedPlaces(rs: seq<Record>, bs: seq<Record>, at: seq<nat>)
    requires DistinctIds(rs) && |at| == |bs| && Increasing(at)
    requires forall i :: 0 <= i < |at| ==> at[i] < |rs| && bs[i].id == rs[at[i]].id
    ensures forall i :: 0 <= i < |at| ==> Replaced(rs, bs)[at[i]] == bs[i]
    ensures forall k: nat :: k < |rs| && k !in at ==> Replaced(rs, bs)[k] == rs[k]
  {
    forall i, j | 0 <= i < j < |bs|
      ensures bs[i].id != bs[j].id
    {
      assert at[i] < at[j];
    }
    ByIdKeys(bs);
    forall i | 0 <= i < |at|
      ensures Replaced(rs, bs)[at[i]] == bs[i]
    {
      ByIdAt(bs, i);
    }
    forall k: nat | k < |rs| && k !in at
      ensures rs[k].id !in ById(bs)
    {
      forall i | 0 <= i < |bs|
        ensures bs[i].id != rs[k].id
      {
        assert at[i] in at;
      }
    }
  }
}
