/** Taking rows from several queues in turn until a budget is spent or every queue is empty. */
module RoundRobin {
  import opened Prelude

  /** The rows at depth `r` of the first `j` queues. */
  function Column<T>(queues: seq<seq<T>>, r: nat, j: nat): seq<T>
    requires j <= |queues|
  {
    if j == 0 then []
    else if r < |queues[j - 1]| then Column(queues, r, j - 1) + [queues[j - 1][r]]
    else Column(queues, r, j - 1)
  }

  /** The first `r` rows of every queue, depth by depth. */
  function Columns<T>(queues: seq<seq<T>>, r: nat): seq<T> {
    if r == 0 then [] else Columns(queues, r - 1) + Column(queues, r - 1, |queues|)
  }

  function Longest<T>(queues: seq<seq<T>>): nat {
    if queues == [] then 0
    else var n := Longest(DropLast(queues)); if |Last(queues)| > n then |Last(queues)| else n
  }

  /** All rows in the order of a full round robin. */
  function Listing<T>(queues: seq<seq<T>>): seq<T> {
    Columns(queues, Longest(queues))
  }

  function Concat<T>(queues: seq<seq<T>>): seq<T> {
    if queues == [] then [] else Concat(DropLast(queues)) + Last(queues)
  }

  /** How far into queue `i` a round robin is that has finished `r` passes and visited `j` queues of the next. */
  function Taken<T>(queues: seq<seq<T>>, r: nat, j: nat, i: nat): nat
    requires i < |queues|
  {
    Min(if i < j then r + 1 else r, |queues[i]|)
  }

  // ---- The loop

  /** What the loop holds: `r` full passes and `j` queues of the next one have been served. */
  ghost predicate Serving<T>(initial: seq<seq<T>>, queues: seq<seq<T>>, out: seq<T>, r: nat, j: nat) {
    && |queues| == |initial| && j <= |initial|
    && out == Columns(initial, r) + Column(initial, r, j)
    && forall i :: 0 <= i < |initial| ==> queues[i] == initial[i][Taken(initial, r, j, i)..]
  }

  lemma ServeNext<T>(initial: seq<seq<T>>, queues: seq<seq<T>>, out: seq<T>, r: nat, j: nat)
    requires Serving(initial, queues, out, r, j) && j < |initial| == |queues|
    ensures queues[j] == [] ==> Serving(initial, queues, out, r, j + 1)
    ensures queues[j] != [] ==> Serving(initial, queues[j := queues[j][1..]], out + [queues[j][0]], r, j + 1)
  {
    assert queues[j] == initial[j][Taken(initial, r, j, j)..];
    hide Columns;
    if queues[j] != [] {
      assert queues[j][0] == initial[j][r];
      assert Column(initial, r, j + 1) == Column(initial, r, j) + [queues[j][0]];
      assert out + [queues[j][0]] == Columns(initial, r) + Column(initial, r, j + 1);
    }
  }

  lemma NextPass<T>(initial: seq<seq<T>>, queues: seq<seq<T>>, out: seq<T>, r: nat)
    requires Serving(initial, queues, out, r, |initial|)
    ensures Serving(initial, queues, out, r + 1, 0)
  {
    assert out == Columns(initial, r + 1) + [];
  }

  /** When a whole pass finds nothing, nothing is left. */
  lemma {:induction false} EmptyPass<T>(initial: seq<seq<T>>, r: nat, j: nat)
    requires j <= |initial| && Column(initial, r, j) == []
    ensures forall i :: 0 <= i < j ==> |initial[i]| <= r
  {
    if j > 0 {
      EmptyPass(initial, r, j - 1);
    }
  }

  lemma {:induction false} LongestBounds<T>(queues: seq<seq<T>>)
    ensures forall i :: 0 <= i < |queues| ==> |queues[i]| <= Longest(queues)
    ensures queues != [] ==> exists i :: 0 <= i < |queues| && |queues[i]| == Longest(queues)
    ensures queues == [] ==> Longest(queues) == 0
  {
    if queues != [] {
      LongestBounds(DropLast(queues));
      assert |queues[|queues| - 1]| == |Last(queues)|;
      if |Last(queues)| < Longest(queues) {
        var i :| 0 <= i < |DropLast(queues)| && |DropLast(queues)[i]| == Longest(queues);
        assert |queues[i]| == Longest(queues);
      }
    }
  }

  lemma {:induction false} ColumnEmpty<T>(queues: seq<seq<T>>, r: nat, j: nat)
    requires j <= |queues| && forall i :: 0 <= i < j ==> |queues[i]| <= r
    ensures Column(queues, r, j) == []
  {
    if j > 0 {
      ColumnEmpty(queues, r, j - 1);
    }
  }

  lemma {:induction false} ColumnsGrow<T>(queues: seq<seq<T>>, r: nat, s: nat)
    requires r <= s
    ensures Columns(queues, r) <= Columns(queues, s)
  {
    if r < s {
      ColumnsGrow(queues, r, s - 1);
    }
  }

  lemma {:induction false} ColumnGrows<T>(queues: seq<seq<T>>, r: nat, j: nat, k: nat)
    requires j <= k <= |queues|
    ensures Column(queues, r, j) <= Column(queues, r, k)
  {
    if j < k {
      ColumnGrows(queues, r, j, k - 1);
    }
  }

  lemma {:induction false} ColumnsEnd<T>(queues: seq<seq<T>>, r: nat)
    requires r >= Longest(queues)
    ensures Columns(queues, r) == Listing(queues)
  {
    if r > Longest(queues) {
      ColumnsEnd(queues, r - 1);
      LongestBounds(queues);
      ColumnEmpty(queues, r - 1, |queues|);
    }
  }

  /** Whatever has been served is a prefix of the full round robin. */
  lemma ServedIsPrefix<T>(queues: seq<seq<T>>, r: nat, j: nat)
    requires j <= |queues|
    ensures Columns(queues, r) + Column(queues, r, j) <= Listing(queues)
  {
    hide Columns, Column, Listing, Longest;
    var a, b, c := Columns(queues, r), Column(queues, r, j), Column(queues, r, |queues|);
    ColumnGrows(queues, r, j, |queues|);
    NextColumns(queues, r);
    if r + 1 <= Longest(queues) {
      ColumnsGrow(queues, r + 1, Longest(queues));
      ColumnsEnd(queues, Longest(queues));
    } else {
      ColumnsEnd(queues, r + 1);
    }
    PrefixWithin(a, b, c, Listing(queues));
  }

  lemma PrefixWithin<T>(a: seq<T>, b: seq<T>, c: seq<T>, all: seq<T>)
    requires b <= c && a + c <= all
    ensures a + b <= all
  {
    assert (a + c)[..|a + b|] == a + b;
    assert all[..|a + c|][..|a + b|] == all[..|a + b|];
  }

  lemma AllServed<T>(queues: seq<seq<T>>, r: nat)
    requires Column(queues, r, |queues|) == []
    ensures Columns(queues, r) == Listing(queues)
  {
    EmptyPass(queues, r, |queues|);
    LongestBounds(queues);
    ColumnsEnd(queues, r);
  }

  /** The nested loop of the sampler: `queues[i].shift()` in turn, until `budget` rows are taken or a pass adds none. */
  method TakeInTurn<T>(queues: array<seq<T>>, budget: nat) returns (out: seq<T>)
    modifies queues
    ensures var all := Listing(old(queues[..])); out == all[..Min(budget, |all|)]
    ensures multiset(out) + multiset(Concat(queues[..])) == multiset(Concat(old(queues[..])))
  {
    hide Column, Columns, Longest, Listing, Serving, Concat;
    ghost var initial := queues[..];
    ghost var r: nat, j: nat := 0, 0;
    out := [];
    StartServing(initial);
    var done := false;
    while |out| < budget && !done
      invariant j <= queues.Length && Serving(initial, queues[..], out, r, j) && |out| <= budget
      invariant |out| < budget && !done ==> j == 0
      invariant multiset(out) + multiset(Concat(queues[..])) == multiset(Concat(initial))
      invariant done ==> out == Listing(initial)
      decreases if done then 0 else 1, budget - |out|
    {
      var added := false;
      ghost var before := |out|;
      PassStarts(initial, queues[..], out, r);
      var i := 0;
      while i < queues.Length && |out| < budget
        invariant 0 <= i <= queues.Length
        invariant Serving(initial, queues[..], out, r, i) && before <= |out| <= budget
        invariant added <==> before < |out|
        invariant multiset(out) + multiset(Concat(queues[..])) == multiset(Concat(initial))
      {
        ghost var qs := queues[..];
        ServeNext(initial, qs, out, r, i);
        if queues[i] != [] {
          ShiftConserves(qs, i);
          out := out + [queues[i][0]];
          queues[i] := queues[i][1..];
          assert queues[..] == qs[i := qs[i][1..]];
          added := true;
        }
        i := i + 1;
      }
      j := i;
      if !added {
        NothingAdded(initial, queues[..], out, r);
        done := true;
      } else if i == queues.Length {
        NextPass(initial, queues[..], out, r);
        r, j := r + 1, 0;
      }
    }
    ServedSoFar(initial, queues[..], out, r, j);
  }

  lemma ServedSoFar<T>(initial: seq<seq<T>>, queues: seq<seq<T>>, out: seq<T>, r: nat, j: nat)
    requires Serving(initial, queues, out, r, j)
    ensures out <= Listing(initial)
  {
    ServedIsPrefix(initial, r, j);
  }

  lemma StartServing<T>(queues: seq<seq<T>>)
    ensures Serving(queues, queues, [], 0, 0)
  {
  }

  lemma PassStarts<T>(initial: seq<seq<T>>, queues: seq<seq<T>>, out: seq<T>, r: nat)
    requires Serving(initial, queues, out, r, 0)
    ensures out == Columns(initial, r)
  {
  }

  lemma NothingAdded<T>(initial: seq<seq<T>>, queues: seq<seq<T>>, out: seq<T>, r: nat)
    requires Serving(initial, queues, out, r, |initial|) && |out| <= |Columns(initial, r)|
    ensures out == Listing(initial)
  {
    assert Column(initial, r, |initial|) == [];
    AllServed(initial, r);
  }

  // ---- What the full round robin holds

  lemma {:induction false} ColumnDrops<T>(queues: seq<seq<T>>, r: nat, j: nat)
    requires queues != [] && j <= |queues| - 1
    ensures Column(queues, r, j) == Column(DropLast(queues), r, j)
  {
    if j > 0 {
      ColumnDrops(queues, r, j - 1);
    }
  }

  function RowAt<T>(queue: seq<T>, r: nat): seq<T> {
    if r < |queue| then [queue[r]] else []
  }

  lemma ColumnSplits<T>(queues: seq<seq<T>>, r: nat)
    requires queues != []
    ensures Column(queues, r, |queues|) == Column(DropLast(queues), r, |DropLast(queues)|) + RowAt(Last(queues), r)
  {
    ColumnDrops(queues, r, |queues| - 1);
  }

  lemma RowAdds<T>(queue: seq<T>, r: nat)
    ensures queue[..Min(r + 1, |queue|)] == queue[..Min(r, |queue|)] + RowAt(queue, r)
  {
  }

  lemma Rearrange<T>(a: seq<T>, b: seq<T>, c: seq<T>, d: seq<T>, h: seq<T>, w: seq<T>)
    requires multiset(a) == multiset(c) + multiset(h) && b == d + w
    ensures multiset(a + b) == multiset(c + d) + multiset(h + w)
  {
  }

  lemma NextColumns<T>(queues: seq<seq<T>>, r: nat)
    ensures Columns(queues, r + 1) == Columns(queues, r) + Column(queues, r, |queues|)
  {
  }

  /** The first `r` rows of each queue are the ones listed. */
  lemma {:induction false} ColumnsCount<T>(queues: seq<seq<T>>, r: nat)
    requires queues != []
    ensures multiset(Columns(queues, r)) == multiset(Columns(DropLast(queues), r))
                                            + multiset(Last(queues)[..Min(r, |Last(queues)|)])
  {
    hide Column, RowAt, Columns;
    var d, q := DropLast(queues), Last(queues);
    if r > 0 {
      ColumnsCount(queues, r - 1);
      ColumnSplits(queues, r - 1);
      RowAdds(q, r - 1);
      NextColumns(queues, r - 1);
      NextColumns(d, r - 1);
      Rearrange(Columns(queues, r - 1), Column(queues, r - 1, |queues|), Columns(d, r - 1), Column(d, r - 1, |d|),
                q[..Min(r - 1, |q|)], RowAt(q, r - 1));
    } else {
      NoPasses(queues);
      NoPasses(d);
      assert q[..0] == [];
    }
  }

  lemma NoPasses<T>(queues: seq<seq<T>>)
    ensures Columns(queues, 0) == []
  {
  }

  /** The full round robin is a rearrangement of the queues: it ends, and drops and repeats nothing. */
  lemma {:induction false} ListingRearranges<T>(queues: seq<seq<T>>)
    ensures multiset(Listing(queues)) == multiset(Concat(queues))
  {
    hide Columns;
    if queues != [] {
      var d, n := DropLast(queues), Longest(queues);
      ListingRearranges(d);
      ColumnsCount(queues, n);
      ColumnsEnd(d, n);
      LongestBounds(queues);
      assert Last(queues)[..|Last(queues)|] == Last(queues);
    } else {
      NoColumns(queues, Longest(queues));
    }
  }

  lemma {:induction false} NoColumns<T>(queues: seq<seq<T>>, r: nat)
    requires queues == []
    ensures Columns(queues, r) == []
  {
    if r > 0 {
      NoColumns(queues, r - 1);
    }
  }

  // ---- Fairness

  /** The first `taken[i]` rows of each queue. */
  function Heads<T>(queues: seq<seq<T>>, taken: seq<nat>): seq<seq<T>>
    requires |taken| == |queues| && forall i :: 0 <= i < |queues| ==> taken[i] <= |queues[i]|
  {
    seq(|queues|, i requires 0 <= i < |queues| => queues[i][..taken[i]])
  }

  /** No queue is more than one row ahead of a queue that still has rows. */
  ghost predicate Balanced<T>(queues: seq<seq<T>>, taken: seq<nat>) {
    && |taken| == |queues| && (forall i :: 0 <= i < |queues| ==> taken[i] <= |queues[i]|)
    && forall a, b :: 0 <= a < |queues| && 0 <= b < |queues| && taken[b] < |queues[b]| ==> taken[a] <= taken[b] + 1
  }

  /** What was drawn is a prefix of every queue, and the prefixes are balanced. */
  ghost predicate FairlyDrawn<T>(queues: seq<seq<T>>, out: seq<T>) {
    exists taken :: Balanced(queues, taken) && multiset(out) == multiset(Concat(Heads(queues, taken)))
  }

  function Shares<T>(queues: seq<seq<T>>, r: nat, j: nat): (s: seq<nat>)
    ensures |s| == |queues| && forall i :: 0 <= i < |queues| ==> s[i] == Taken(queues, r, j, i)
  {
    seq(|queues|, i requires 0 <= i < |queues| => Taken(queues, r, j, i))
  }

  lemma {:induction false} DrawnIsHeads<T>(queues: seq<seq<T>>, r: nat, j: nat)
    requires j <= |queues|
    ensures multiset(Columns(queues, r) + Column(queues, r, j)) == multiset(Concat(Heads(queues, Shares(queues, r, j))))
  {
    hide RowAt, Columns, Column;
    if queues == [] {
      NoColumns(queues, r);
      EmptyColumn(queues, r);
    } else {
      var d, q := DropLast(queues), Last(queues);
      var k := if j == |queues| then j - 1 else j;
      var w := if j == |queues| then RowAt(q, r) else [];
      DrawnIsHeads(d, r, k);
      ColumnsCount(queues, r);
      if j == |queues| {
        ColumnSplits(queues, r);
        RowAdds(q, r);
      } else {
        ColumnDrops(queues, r, j);
      }
      Rearrange(Columns(queues, r), Column(queues, r, j), Columns(d, r), Column(d, r, k), q[..Min(r, |q|)], w);
      HeadsSplit(queues, r, j, k);
    }
  }

  lemma HeadsSplit<T>(queues: seq<seq<T>>, r: nat, j: nat, k: nat)
    requires queues != [] && j <= |queues| && k == if j == |queues| then j - 1 else j
    ensures var d, q := DropLast(queues), Last(queues);
            Concat(Heads(queues, Shares(queues, r, j)))
            == Concat(Heads(d, Shares(d, r, k))) + q[..Min(if j == |queues| then r + 1 else r, |q|)]
  {
    var heads := Heads(queues, Shares(queues, r, j));
    assert DropLast(heads) == Heads(DropLast(queues), Shares(DropLast(queues), r, k));
  }

  lemma EmptyColumn<T>(queues: seq<seq<T>>, r: nat)
    ensures Column(queues, r, 0) == []
  {
  }

  lemma {:induction false} ColumnCut<T>(queues: seq<seq<T>>, r: nat, k: nat, m: nat) returns (j: nat)
    requires k <= |queues| && m <= |Column(queues, r, k)|
    ensures j <= k && Column(queues, r, j) == Column(queues, r, k)[..m]
  {
    if m == |Column(queues, r, k)| {
      j := k;
    } else {
      j := ColumnCut(queues, r, k - 1, m);
    }
  }

  lemma {:induction false} ColumnsCut<T>(queues: seq<seq<T>>, r: nat, n: nat) returns (s: nat, j: nat)
    requires n <= |Columns(queues, r)|
    ensures j <= |queues| && Columns(queues, s) + Column(queues, s, j) == Columns(queues, r)[..n]
  {
    hide Column;
    if r == 0 {
      s, j := 0, 0;
      EmptyColumn(queues, 0);
    } else if n <= |Columns(queues, r - 1)| {
      s, j := ColumnsCut(queues, r - 1, n);
    } else {
      s := r - 1;
      j := ColumnCut(queues, r - 1, |queues|, n - |Columns(queues, r - 1)|);
    }
  }

  /** However much of the round robin is drawn, it is drawn fairly. */
  lemma EveryPrefixIsFair<T>(queues: seq<seq<T>>, n: nat)
    requires n <= |Listing(queues)|
    ensures FairlyDrawn(queues, Listing(queues)[..n])
  {
    hide Columns, Column, Concat;
    var s, j := ColumnsCut(queues, Longest(queues), n);
    DrawnIsHeads(queues, s, j);
    assert Balanced(queues, Shares(queues, s, j));
  }

  /** Moving a row from a queue to the output loses nothing. */
  lemma {:induction false} ShiftConserves<T>(queues: seq<seq<T>>, i: nat)
    requires i < |queues| && queues[i] != []
    ensures multiset(Concat(queues)) == multiset(Concat(queues[i := queues[i][1..]])) + multiset{queues[i][0]}
  {
    hide Concat;
    var shifted := queues[i := queues[i][1..]];
    var d := DropLast(queues);
    ConcatLast(queues);
    ConcatLast(shifted);
    if i == |queues| - 1 {
      assert DropLast(shifted) == d;
      assert queues[i] == [queues[i][0]] + queues[i][1..];
    } else {
      ShiftConserves(d, i);
      assert DropLast(shifted) == d[i := queues[i][1..]];
    }
  }

  lemma ConcatLast<T>(queues: seq<seq<T>>)
    requires queues != []
    ensures multiset(Concat(queues)) == multiset(Concat(DropLast(queues))) + multiset(queues[|queues| - 1])
  {
  }
}
