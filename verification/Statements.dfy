/** SQL statements over one table, run on a list of parameter rows, and the 500-row batching loop. */
module Statements {
  import opened Prelude
  import opened Corpus

  const BATCH_SIZE: nat := 500

  /** One element of the JSON array a statement reads: the ids it is aimed at and the values it carries. */
  datatype Row<P> = Row(keys: set<Id>, val: P)

  type Table<T> = map<Id, T>

  /** The statement forms used: a plain INSERT, INSERT .. ON CONFLICT DO NOTHING,
      INSERT .. ON CONFLICT DO UPDATE, and UPDATE .. FROM rows WHERE join(target) = row key. */
  datatype Statement<!T, !P> =
    | Insert(make: P -> T)
    | InsertOrIgnore(make: P -> T)
    | InsertOrUpdate(make: P -> T, onConflict: (T, P) -> T)
    | Update(join: (Id, T) -> Id, assign: (T, P) -> T)

  /** The first parameter row aimed at `k`. */
  function Find<P>(rows: seq<Row<P>>, k: Id): Option<P> {
    if rows == [] then None
    else if k in rows[0].keys then Some(rows[0].val)
    else Find(rows[1..], k)
  }

  function Keys<P>(rows: seq<Row<P>>): set<Id> {
    if rows == [] then {} else rows[0].keys + Keys(rows[1..])
  }

  predicate Disjoint<P>(rows: seq<Row<P>>) {
    forall i, j :: 0 <= i < j < |rows| ==> rows[i].keys !! rows[j].keys
  }

  function Written<T, P>(t: Table<T>, rows: seq<Row<P>>, make: P -> T, onConflict: (T, P) -> T): Table<T> {
    FindKeys(rows);
    map k | k in t.Keys + Keys(rows) ::
      if k !in t then make(Find(rows, k).value)
      else if k in Keys(rows) then onConflict(t[k], Find(rows, k).value)
      else t[k]
  }

  function Updated<T, P>(t: Table<T>, rows: seq<Row<P>>, join: (Id, T) -> Id, assign: (T, P) -> T): Table<T> {
    map k | k in t ::
      match Find(rows, join(k, t[k]))
      case None => t[k]
      case Some(p) => assign(t[k], p)
  }

  /** ON CONFLICT DO NOTHING */
  function Keep<T, P>(stored: T, offered: P): T { stored }

  /** What one statement writes for one parameter array; `None` if it meets a primary key that is taken. */
  function Effect<T, P>(s: Statement<T, P>, t: Table<T>, rows: seq<Row<P>>): Option<Table<T>> {
    match s
    case Insert(make) =>
      if Disjoint(rows) && Keys(rows) !! t.Keys then Some(Written(t, rows, make, Keep)) else None
    case InsertOrIgnore(make) =>
      Some(Written(t, rows, make, Keep))
    case InsertOrUpdate(make, onConflict) =>
      if Disjoint(rows) then Some(Written(t, rows, make, onConflict)) else None
    case Update(join, assign) =>
      Some(Updated(t, rows, join, assign))
  }

  /** The foreign and unique keys of a table: whether what a row refers to exists, and the value that no
      other row may share. A table without a unique key besides its primary key uses `PrimaryKey`. */
  datatype Rule<!T> = Rule(refers: (Id, T) -> bool, uniqueKey: (Id, T) -> UniqueKey)

  datatype UniqueKey =
    | PrimaryKey(id: Id)
    | AliasKey(normalized: string)
    | ObjectKey(source: Id, external: External)
    | VersionKey(sourceObject: Id, hash: Id)
    | RelationKey(fromId: Id, toId: Id, stance: Stance)
    | ReferenceKey(system: SourceSystem, keyType: KeyType, externalKey: string)
    | CandidateKey(system: SourceSystem, keyType: KeyType, externalKey: string, resource: Id, sourceVersion: Id)
    | ChunkKey(contentVersion: Id, resource: Id, chunkIndex: int)

  predicate Refers<T>(t: Table<T>, rule: Rule<T>) {
    forall k | k in t :: rule.refers(k, t[k])
  }

  predicate UniqueKeyed<T>(t: Table<T>, rule: Rule<T>) {
    forall j, k | j in t && k in t && rule.uniqueKey(j, t[j]) == rule.uniqueKey(k, t[k]) :: j == k
  }

  predicate Obeys<T>(t: Table<T>, rule: Rule<T>) {
    Refers(t, rule) && UniqueKeyed(t, rule)
  }

  /** One statement: its effect, or `None` for a constraint error. */
  function Exec<T, P>(s: Statement<T, P>, rule: Rule<T>, t: Table<T>, rows: seq<Row<P>>): Option<Table<T>> {
    var after :- Effect(s, t, rows);
    if Obeys(after, rule) then Some(after) else None
  }

  /** The statement changes no column of the unique key of a row that exists. */
  ghost predicate KeepsKey<T(!new), P(!new)>(s: Statement<T, P>, rule: Rule<T>) {
    match s
    case InsertOrUpdate(make, onConflict) => forall k, t, p ::
      rule.uniqueKey(k, onConflict(t, p)) == rule.uniqueKey(k, t)
    case Update(join, assign) => forall k, t, p :: rule.uniqueKey(k, assign(t, p)) == rule.uniqueKey(k, t)
    case _ => true
  }

  /** The statement changes no column of any key of a row that exists. */
  ghost predicate KeepsRule<T(!new), P(!new)>(s: Statement<T, P>, rule: Rule<T>) {
    && s.Update?
    && forall k, t, p ::
         rule.uniqueKey(k, s.assign(t, p)) == rule.uniqueKey(k, t)
         && (rule.refers(k, s.assign(t, p)) <==> rule.refers(k, t))
  }

  /** An UPDATE does not assign the column it joins on. */
  ghost predicate Stable<T(!new), P(!new)>(s: Statement<T, P>) {
    s.Update? ==> forall k, t, p :: s.join(k, s.assign(t, p)) == s.join(k, t)
  }

  /** `rows.slice(offset, offset + BATCH_SIZE)` for offset 0, 500, 1000, .. */
  function Slices<P>(rows: seq<P>): seq<seq<P>> {
    if rows == [] then []
    else if |rows| <= BATCH_SIZE then [rows]
    else [rows[..BATCH_SIZE]] + Slices(rows[BATCH_SIZE..])
  }

  function Concat<P>(slices: seq<seq<P>>): seq<P> {
    if slices == [] then [] else slices[0] + Concat(slices[1..])
  }

  function ExecAll<T, P>(s: Statement<T, P>, rule: Rule<T>, t: Table<T>, slices: seq<seq<Row<P>>>): Option<Table<T>>
    decreases |slices|
  {
    if slices == [] then Some(t)
    else
      var t' :- Exec(s, rule, t, slices[0]);
      ExecAll(s, rule, t', slices[1..])
  }

  /** The batching loop: one statement per slice, stopping at the first constraint error. */
  method InsertBatches<T, P>(s: Statement<T, P>, rule: Rule<T>, t: Table<T>, rows: seq<Row<P>>)
    returns (r: Option<Table<T>>)
    ensures r == ExecAll(s, rule, t, Slices(rows))
  {
    hide Exec;
    r := Some(t);
    var offset := 0;
    while offset < |rows|
      invariant 0 <= offset && r.Some?
      invariant ExecAll(s, rule, t, Slices(rows)) == ExecAll(s, rule, r.value, Slices(rows[Min(offset, |rows|)..]))
    {
      ghost var rest := rows[offset..];
      var slice := rows[offset..Min(offset + BATCH_SIZE, |rows|)];
      offset := offset + BATCH_SIZE;
      assert rows[Min(offset, |rows|)..] == if |rest| <= BATCH_SIZE then [] else rest[BATCH_SIZE..];
      assert Slices(rest)[0] == slice && Slices(rest)[1..] == Slices(rows[Min(offset, |rows|)..]);
      r := Exec(s, rule, r.value, slice);
      if r == None {
        return;
      }
    }
    assert rows[Min(offset, |rows|)..] == [];
  }

  // ---- Finding rows

  lemma {:induction false} FindKeys<P>(rows: seq<Row<P>>)
    ensures forall k :: k in Keys(rows) <==> Find(rows, k).Some?
  {
    if rows != [] {
      FindKeys(rows[1..]);
    }
  }

  lemma {:induction false} KeysOfRows<P>(rows: seq<Row<P>>)
    ensures forall k :: k in Keys(rows) <==> exists i :: 0 <= i < |rows| && k in rows[i].keys
  {
    if rows != [] {
      KeysOfRows(rows[1..]);
      forall k
        ensures k in Keys(rows) <==> exists i :: 0 <= i < |rows| && k in rows[i].keys
      {
        if k in Keys(rows[1..]) {
          var i :| 0 <= i < |rows[1..]| && k in rows[1..][i].keys;
          assert k in rows[i + 1].keys;
        }
        if i :| 0 <= i < |rows| && k in rows[i].keys {
          if i > 0 {
            assert k in rows[1..][i - 1].keys;
          }
        }
      }
    }
  }

  lemma {:induction false} FindAppend<P>(a: seq<Row<P>>, b: seq<Row<P>>, k: Id)
    ensures Find(a + b, k) == if Find(a, k).Some? then Find(a, k) else Find(b, k)
  {
    if a == [] {
      assert a + b == b;
    } else {
      assert (a + b)[1..] == a[1..] + b;
      FindAppend(a[1..], b, k);
    }
  }

  lemma {:induction false} FindMember<P>(rows: seq<Row<P>>, k: Id)
    ensures Find(rows, k).Some? ==>
              exists i :: 0 <= i < |rows| && k in rows[i].keys && rows[i].val == Find(rows, k).value
  {
    if rows != [] && k !in rows[0].keys {
      FindMember(rows[1..], k);
      if Find(rows, k).Some? {
        var i :| 0 <= i < |rows[1..]| && k in rows[1..][i].keys && rows[1..][i].val == Find(rows, k).value;
        assert rows[i + 1] == rows[1..][i];
      }
    }
  }

  lemma DisjointTail<P>(rows: seq<Row<P>>)
    requires Disjoint(rows) && rows != []
    ensures Disjoint(rows[1..])
  {
    forall i, j | 0 <= i < j < |rows[1..]|
      ensures rows[1..][i].keys !! rows[1..][j].keys
    {
      assert rows[1..][i] == rows[i + 1] && rows[1..][j] == rows[j + 1];
    }
  }

  lemma {:induction false} FindAt<P>(rows: seq<Row<P>>, i: nat, k: Id)
    requires Disjoint(rows) && i < |rows| && k in rows[i].keys
    ensures Find(rows, k) == Some(rows[i].val)
  {
    if i > 0 {
      DisjointTail(rows);
      FindAt(rows[1..], i - 1, k);
    }
  }

  lemma {:induction false} FindNone<P>(rows: seq<Row<P>>, k: Id)
    requires forall i :: 0 <= i < |rows| ==> k !in rows[i].keys
    ensures Find(rows, k) == None
  {
    if rows != [] {
      FindNone(rows[1..], k);
    }
  }

  lemma DisjointHalves<P>(a: seq<Row<P>>, b: seq<Row<P>>)
    requires Disjoint(a + b)
    ensures Disjoint(a) && Disjoint(b)
    ensures Keys(a) !! Keys(b)
  {
    forall i, j | 0 <= i < j < |a|
      ensures a[i].keys !! a[j].keys
    {
      assert (a + b)[i] == a[i] && (a + b)[j] == a[j];
    }
    forall i, j | 0 <= i < j < |b|
      ensures b[i].keys !! b[j].keys
    {
      assert (a + b)[|a| + i] == b[i] && (a + b)[|a| + j] == b[j];
    }
    KeysOfRows(a);
    KeysOfRows(b);
    forall k | k in Keys(a)
      ensures k !in Keys(b)
    {
      var i :| 0 <= i < |a| && k in a[i].keys;
      forall j | 0 <= j < |b|
        ensures k !in b[j].keys
      {
        assert (a + b)[i] == a[i] && (a + b)[|a| + j] == b[j];
      }
    }
  }

  lemma DisjointJoin<P>(a: seq<Row<P>>, b: seq<Row<P>>)
    requires Disjoint(a) && Disjoint(b) && Keys(a) !! Keys(b)
    ensures Disjoint(a + b)
  {
    KeysOfRows(a);
    KeysOfRows(b);
    forall i, j | 0 <= i < j < |a + b|
      ensures (a + b)[i].keys !! (a + b)[j].keys
    {
      if i < |a| <= j {
        assert (a + b)[i] == a[i] && (a + b)[j] == b[j - |a|];
        assert a[i].keys <= Keys(a) && b[j - |a|].keys <= Keys(b);
      }
    }
  }

  lemma KeysAppend<P>(a: seq<Row<P>>, b: seq<Row<P>>)
    ensures Keys(a + b) == Keys(a) + Keys(b)
  {
    FindKeys(a);
    FindKeys(b);
    FindKeys(a + b);
    forall k
      ensures k in Keys(a + b) <==> k in Keys(a) + Keys(b)
    {
      FindAppend(a, b, k);
    }
  }

  // ---- Batching is invisible

  lemma WrittenSplits<T, P>(t: Table<T>, a: seq<Row<P>>, b: seq<Row<P>>, make: P -> T, onConflict: (T, P) -> T)
    requires Keys(a) !! Keys(b)
    ensures Written(t, a + b, make, onConflict) == Written(Written(t, a, make, onConflict), b, make, onConflict)
  {
    KeysAppend(a, b);
    FindKeys(a);
    FindKeys(b);
    forall k {
      FindAppend(a, b, k);
    }
  }

  lemma UpdatedSplits<T(!new), P(!new)>(t: Table<T>, a: seq<Row<P>>, b: seq<Row<P>>,
                                        join: (Id, T) -> Id, assign: (T, P) -> T)
    requires Keys(a) !! Keys(b)
    requires forall k, x, p :: join(k, assign(x, p)) == join(k, x)
    ensures Updated(t, a + b, join, assign) == Updated(Updated(t, a, join, assign), b, join, assign)
  {
    FindKeys(a);
    FindKeys(b);
    var u := Updated(t, a, join, assign);
    forall k | k in t
      ensures Updated(t, a + b, join, assign)[k] == Updated(u, b, join, assign)[k]
    {
      var x := join(k, t[k]);
      FindAppend(a, b, x);
      if Find(a, x).Some? {
        assert u[k] == assign(t[k], Find(a, x).value);
        assert join(k, u[k]) == x;
        assert Find(b, x) == None;
      }
    }
  }

  /** Running a statement on `a + b` is running it on `a` and then on `b`. */
  lemma EffectSplits<T(!new), P(!new)>(s: Statement<T, P>, t: Table<T>, a: seq<Row<P>>, b: seq<Row<P>>)
    requires Disjoint(a + b) && Stable(s)
    ensures Effect(s, t, a + b) == (match Effect(s, t, a) case None => None case Some(u) => Effect(s, u, b))
  {
    DisjointHalves(a, b);
    KeysAppend(a, b);
    match s
    case Insert(make) =>
      WrittenSplits(t, a, b, make, Keep);
    case InsertOrIgnore(make) =>
      WrittenSplits(t, a, b, make, Keep);
    case InsertOrUpdate(make, onConflict) =>
      WrittenSplits(t, a, b, make, onConflict);
    case Update(join, assign) =>
      UpdatedSplits(t, a, b, join, assign);
  }

  /** Each row stored after `a` was there before `a`, or stays as it is through `b`. */
  lemma EffectKeepsRow<T(!new), P(!new)>(s: Statement<T, P>, t: Table<T>, a: seq<Row<P>>, b: seq<Row<P>>, k: Id)
    requires Stable(s) && Keys(a) !! Keys(b)
    requires Effect(s, t, a).Some? && Effect(s, Effect(s, t, a).value, b).Some?
    ensures var u := Effect(s, t, a).value;
            var w := Effect(s, u, b).value;
            k in u ==> k in w && ((k in t && u[k] == t[k]) || w[k] == u[k])
  {
    FindKeys(a);
    FindKeys(b);
  }

  lemma EffectKeepsKey<T(!new), P(!new)>(s: Statement<T, P>, rule: Rule<T>, t: Table<T>, rows: seq<Row<P>>, k: Id)
    requires KeepsKey(s, rule) && Effect(s, t, rows).Some? && k in t
    ensures k in Effect(s, t, rows).value
    ensures rule.uniqueKey(k, Effect(s, t, rows).value[k]) == rule.uniqueKey(k, t[k])
  {
    FindKeys(rows);
    var u := Effect(s, t, rows).value;
    match s
    case Insert(make) =>
    case InsertOrIgnore(make) =>
    case InsertOrUpdate(make, onConflict) =>
      assert k in Keys(rows) ==> u[k] == onConflict(t[k], Find(rows, k).value);
    case Update(join, assign) =>
      assert Find(rows, join(k, t[k])).Some? ==> u[k] == assign(t[k], Find(rows, join(k, t[k])).value);
  }

  /** If the keys hold before `a` and after `a + b`, they hold in between. */
  lemma HoldsBetween<T(!new), P(!new)>(s: Statement<T, P>, rule: Rule<T>, t: Table<T>, a: seq<Row<P>>, b: seq<Row<P>>)
    requires Stable(s) && KeepsKey(s, rule) && Keys(a) !! Keys(b) && Obeys(t, rule)
    requires Effect(s, t, a).Some? && Effect(s, Effect(s, t, a).value, b).Some?
    requires Obeys(Effect(s, Effect(s, t, a).value, b).value, rule)
    ensures Obeys(Effect(s, t, a).value, rule)
  {
    var u := Effect(s, t, a).value;
    var w := Effect(s, u, b).value;
    hide Effect, KeepsKey, Stable;
    forall k | k in u
      ensures rule.refers(k, u[k])
      ensures k in w && rule.uniqueKey(k, w[k]) == rule.uniqueKey(k, u[k])
    {
      EffectKeepsRow(s, t, a, b, k);
      EffectKeepsKey(s, rule, u, b, k);
    }
  }

  lemma ExecSplits<T(!new), P(!new)>(s: Statement<T, P>, rule: Rule<T>, t: Table<T>, a: seq<Row<P>>, b: seq<Row<P>>)
    requires Disjoint(a + b) && Stable(s) && KeepsKey(s, rule) && Obeys(t, rule)
    ensures Exec(s, rule, t, a + b) == (match Exec(s, rule, t, a) case None => None case Some(u) => Exec(s, rule, u, b))
  {
    hide Effect, Obeys, Disjoint, Stable, KeepsKey;
    EffectSplits(s, t, a, b);
    DisjointHalves(a, b);
    if Effect(s, t, a + b).Some? && Obeys(Effect(s, t, a + b).value, rule) {
      HoldsBetween(s, rule, t, a, b);
    }
  }

  /** Sending the rows in slices, each checked against the keys, gives what one statement over all of them gives. */
  lemma {:induction false} BatchingIsInvisible<T(!new), P(!new)>(s: Statement<T, P>, rule: Rule<T>, t: Table<T>,
                                                                 rows: seq<Row<P>>)
    requires Disjoint(rows) && Stable(s) && KeepsKey(s, rule) && Obeys(t, rule)
    ensures ExecAll(s, rule, t, Slices(rows)) == Exec(s, rule, t, rows)
    decreases |rows|
  {
    hide Effect, Obeys, Disjoint, Stable, KeepsKey;
    if |rows| > BATCH_SIZE {
      var a, b := rows[..BATCH_SIZE], rows[BATCH_SIZE..];
      assert rows == a + b;
      DisjointHalves(a, b);
      ExecSplits(s, rule, t, a, b);
      assert Slices(rows)[0] == a && Slices(rows)[1..] == Slices(b);
      if Exec(s, rule, t, a).Some? {
        BatchingIsInvisible(s, rule, Exec(s, rule, t, a).value, b);
      }
    } else if rows != [] {
      assert Slices(rows) == [rows];
      assert Slices(rows)[1..] == [];
    } else {
      EffectOfNothing(s, t);
    }
  }

  /** What slices write, if none of them is refused, is what one statement over all rows writes. */
  lemma {:induction false} SlicesTakeEffect<T(!new), P(!new)>(s: Statement<T, P>, rule: Rule<T>, t: Table<T>,
                                                              rows: seq<Row<P>>)
    requires Disjoint(rows) && Stable(s)
    requires ExecAll(s, rule, t, Slices(rows)).Some?
    ensures Effect(s, t, rows) == ExecAll(s, rule, t, Slices(rows))
    decreases |rows|
  {
    hide Effect, Obeys, Disjoint, Stable;
    if |rows| > BATCH_SIZE {
      var a, b := rows[..BATCH_SIZE], rows[BATCH_SIZE..];
      assert rows == a + b;
      DisjointHalves(a, b);
      EffectSplits(s, t, a, b);
      assert Slices(rows)[0] == a && Slices(rows)[1..] == Slices(b);
      SlicesTakeEffect(s, rule, Exec(s, rule, t, a).value, b);
    } else if rows != [] {
      assert Slices(rows) == [rows];
      assert Slices(rows)[1..] == [];
    } else {
      EffectOfNothing(s, t);
    }
  }

  /** An empty parameter array leaves the table as it is, so skipping it is invisible too. */
  lemma EffectOfNothing<T, P>(s: Statement<T, P>, t: Table<T>)
    ensures Effect(s, t, []) == Some(t)
  {
    var rows: seq<Row<P>> := [];
    assert Keys(rows) == {};
    match s
    case Insert(make) => assert Written(t, rows, make, Keep) == t;
    case InsertOrIgnore(make) => assert Written(t, rows, make, Keep) == t;
    case InsertOrUpdate(make, onConflict) => assert Written(t, rows, make, onConflict) == t;
    case Update(join, assign) => assert Updated(t, rows, join, assign) == t;
  }

  /** An UPDATE that assigns no key column violates no key. */
  lemma UpdateObeys<T(!new), P(!new)>(s: Statement<T, P>, rule: Rule<T>, t: Table<T>, rows: seq<Row<P>>)
    requires KeepsRule(s, rule) && Obeys(t, rule)
    ensures Obeys(Updated(t, rows, s.join, s.assign), rule)
  {
    var u := Updated(t, rows, s.join, s.assign);
    forall k | k in u
      ensures rule.refers(k, u[k]) && rule.uniqueKey(k, u[k]) == rule.uniqueKey(k, t[k])
    {
    }
  }

  /** A table keeps obeying its rule when more of what rows refer to exists. */
  lemma ObeysMore<T(!new)>(t: Table<T>, rule: Rule<T>, wider: Rule<T>)
    requires Obeys(t, rule)
    requires forall k, x :: rule.refers(k, x) ==> wider.refers(k, x)
    requires forall k, x :: wider.uniqueKey(k, x) == rule.uniqueKey(k, x)
    ensures Obeys(t, wider)
  {
  }

  /** The slices are consecutive, lose nothing, and only the last can be short. */
  lemma {:induction false} SlicesPartition<P>(rows: seq<P>)
    ensures Concat(Slices(rows)) == rows
    ensures forall i :: 0 <= i < |Slices(rows)| ==> 0 < |Slices(rows)[i]| <= BATCH_SIZE
    ensures forall i :: 0 <= i < |Slices(rows)| - 1 ==> |Slices(rows)[i]| == BATCH_SIZE
    ensures |Slices(rows)| == (|rows| + BATCH_SIZE - 1) / BATCH_SIZE
    decreases |rows|
  {
    if |rows| > BATCH_SIZE {
      SlicesPartition(rows[BATCH_SIZE..]);
      assert Slices(rows)[1..] == Slices(rows[BATCH_SIZE..]);
    } else if rows != [] {
      assert Slices(rows)[1..] == [];
    }
  }
}
