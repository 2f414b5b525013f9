/** The migration ledger and one run of the migration script. */
module Migrations {
  import opened Prelude

  /** A migration of the manifest, or a row of the ledger; the checksum stands for the script. */
  datatype Migration = Migration(name: string, checksum: string)

  function Names(ms: seq<Migration>): seq<string> {
    Map(ms, (m: Migration) => m.name)
  }

  /** `new Map(items.map(item => [item.name, item.checksum]))` */
  function Checksums(ms: seq<Migration>): map<string, string> {
    if ms == [] then map[] else Checksums(DropLast(ms))[Last(ms).name := Last(ms).checksum]
  }

  datatype Comparison = Comparison(current: bool, verified: int, pending: seq<string>, changed: seq<string>,
                                   unexpected: seq<string>)

  function Pending(manifest: seq<Migration>, ledger: seq<Migration>): seq<string> {
    Names(Filter(manifest, (m: Migration) => m.name !in Checksums(ledger)))
  }

  function Changed(manifest: seq<Migration>, ledger: seq<Migration>): seq<string> {
    Names(Filter(manifest, (m: Migration) => m.name in Checksums(ledger) && Checksums(ledger)[m.name] != m.checksum))
  }

  function Unexpected(manifest: seq<Migration>, ledger: seq<Migration>): seq<string> {
    Names(Filter(ledger, (m: Migration) => m.name !in Checksums(manifest)))
  }

  /** `compareMigrationLedger` */
  function CompareLedger(manifest: seq<Migration>, ledger: seq<Migration>): Comparison {
    var pending, changed, unexpected := Pending(manifest, ledger), Changed(manifest, ledger),
                                        Unexpected(manifest, ledger);
    Comparison(pending == [] && changed == []
               && unexpected == [], |manifest| - |pending| - |changed|, pending, changed, unexpected)
  }

  lemma {:induction false} ChecksumsAre(ms: seq<Migration>)
    requires Distinct(Names(ms))
    ensures forall name, sum :: name in Checksums(ms) && Checksums(ms)[name] == sum <==> Migration(name, sum) in ms
  {
    if ms != [] {
      var d, l := DropLast(ms), Last(ms);
      assert Names(d) == DropLast(Names(ms));
      ChecksumsAre(d);
      assert ms == d + [l];
      forall m | m in d
        ensures m.name != l.name
      {
        var i :| 0 <= i < |d| && d[i] == m;
        assert Names(ms)[i] != Names(ms)[|ms| - 1];
      }
      forall name, sum
        ensures name in Checksums(ms) && Checksums(ms)[name] == sum <==> Migration(name, sum) in ms
      {
        if Migration(name, sum) in d {
          assert name != l.name;
        }
      }
    }
  }

  /** A name is in the ledger. */
  ghost predicate Recorded(ledger: seq<Migration>, name: string) {
    exists sum :: Migration(name, sum) in ledger
  }

  lemma RecordedNames(ledger: seq<Migration>, name: string)
    requires Distinct(Names(ledger))
    ensures name in Checksums(ledger) <==> Recorded(ledger, name)
  {
    ChecksumsAre(ledger);
    if name in Checksums(ledger) {
      assert Migration(name, Checksums(ledger)[name]) in ledger;
    }
  }

  lemma NamesEmpty(ms: seq<Migration>)
    ensures Names(ms) == [] <==> ms == []
  {
  }

  lemma NamesMembers(ms: seq<Migration>, name: string)
    ensures name in Names(ms) <==> Recorded(ms, name)
  {
    if name in Names(ms) {
      var i :| 0 <= i < |ms| && Names(ms)[i] == name;
      assert ms[i] == Migration(name, ms[i].checksum);
      assert ms[i] in ms;
    }
    if sum :| Migration(name, sum) in ms {
      var i :| 0 <= i < |ms| && ms[i] == Migration(name, sum);
      assert Names(ms)[i] == name;
    }
  }

  /** What the comparison tells: `pending` names what the ledger lacks; nothing is changed exactly when recorded
      checksums match; nothing is unexpected exactly when the manifest has every recorded name. */
  lemma ComparisonMeans(manifest: seq<Migration>, ledger: seq<Migration>)
    requires Distinct(Names(manifest)) && Distinct(Names(ledger))
    ensures var c := CompareLedger(manifest, ledger);
            && (forall m :: m in manifest ==> (m.name in c.pending <==> !Recorded(ledger, m.name)))
            && (c.changed == [] <==> forall m :: m in manifest && Recorded(ledger, m.name) ==> m in ledger)
            && (c.unexpected == [] <==> forall m :: m in ledger ==> Recorded(manifest, m.name))
  {
    hide Recorded, Checksums;
    var missing := Filter(manifest, (m: Migration) => m.name !in Checksums(ledger));
    var altered := Filter(manifest, (m: Migration) => m.name in Checksums(ledger)
                                                      && Checksums(ledger)[m.name] != m.checksum);
    var extra := Filter(ledger, (m: Migration) => m.name !in Checksums(manifest));
    FilterMembers(manifest, (m: Migration) => m.name !in Checksums(ledger));
    FilterMembers(manifest, (m: Migration) => m.name in Checksums(ledger) && Checksums(ledger)[m.name] != m.checksum);
    FilterMembers(ledger, (m: Migration) => m.name !in Checksums(manifest));
    forall m: Migration
      ensures m.name in Checksums(ledger) <==> Recorded(ledger, m.name)
      ensures m.name in Checksums(manifest) <==> Recorded(manifest, m.name)
      ensures m.name in Checksums(ledger) ==> (Checksums(ledger)[m.name] == m.checksum <==> m in ledger)
    {
      ChecksumOf(manifest, m);
      ChecksumOf(ledger, m);
    }
    NamesEmpty(altered);
    NamesEmpty(extra);
    forall m | m in manifest
      ensures m.name in Names(missing) <==> !Recorded(ledger, m.name)
    {
      NamesMembers(missing, m.name);
      MissingName(manifest, ledger, missing, m);
    }
    if altered == [] {
      forall m | m in manifest && Recorded(ledger, m.name)
        ensures m in ledger
      {
        assert m !in altered;
      }
    } else {
      assert altered[0] in altered;
    }
    if extra == [] {
      forall m | m in ledger
        ensures Recorded(manifest, m.name)
      {
        assert m !in extra;
      }
    } else {
      assert extra[0] in extra;
    }
  }

  /** The places of the migrations that the ledger has with the same checksum. */
  ghost function Verified(manifest: seq<Migration>, ledger: seq<Migration>): set<nat> {
    set i: nat | i < |manifest| && manifest[i] in ledger
  }

  lemma {:induction false} VerifiedCounted(manifest: seq<Migration>, ledger: seq<Migration>)
    requires Distinct(Names(ledger))
    ensures |Verified(manifest, ledger)| ==
            |manifest| - |Pending(manifest, ledger)| - |Changed(manifest, ledger)|
  {
    hide Checksums;
    if manifest != [] {
      var d, m := DropLast(manifest), Last(manifest);
      VerifiedCounted(d, ledger);
      ChecksumOf(ledger, m);
      if m in ledger {
        assert Recorded(ledger, m.name);
        assert Verified(manifest, ledger) == Verified(d, ledger) + {|d|};
      } else {
        assert Verified(manifest, ledger) == Verified(d, ledger);
      }
    } else {
      assert Verified(manifest, ledger) == {};
    }
  }

  /** The comparison counts the migrations that are recorded as they are, and calls a ledger current exactly when it
      holds the same migrations as the manifest. */
  lemma ComparisonCounts(manifest: seq<Migration>, ledger: seq<Migration>)
    requires Distinct(Names(manifest)) && Distinct(Names(ledger))
    ensures var c := CompareLedger(manifest, ledger);
            && c.verified == |Verified(manifest, ledger)|
            && (c.current <==> forall m :: m in manifest <==> m in ledger)
  {
    hide Recorded, Pending, Changed, Unexpected;
    VerifiedCounted(manifest, ledger);
    ComparisonMeans(manifest, ledger);
    var c := CompareLedger(manifest, ledger);
    NoPending(manifest, ledger);
    forall m: Migration
      ensures m in manifest ==> Recorded(manifest, m.name)
      ensures m in ledger ==> Recorded(ledger, m.name)
    {
      ItsName(manifest, m);
      ItsName(ledger, m);
    }
    if c.current {
      forall m
        ensures m in manifest <==> m in ledger
      {
        if m in ledger {
          var x := WithName(manifest, m.name);
          SameName(ledger, x, m);
        }
      }
    }
  }

  lemma ItsName(ms: seq<Migration>, m: Migration)
    ensures m in ms ==> Recorded(ms, m.name)
  {
    assert m == Migration(m.name, m.checksum);
  }

  lemma WithName(ms: seq<Migration>, name: string) returns (m: Migration)
    requires Recorded(ms, name)
    ensures m in ms && m.name == name
  {
    var sum :| Migration(name, sum) in ms;
    m := Migration(name, sum);
  }

  lemma SameName(ms: seq<Migration>, m: Migration, n: Migration)
    requires Distinct(Names(ms))
    ensures m in ms && n in ms && m.name == n.name ==> m == n
  {
    if m in ms && n in ms && m.name == n.name {
      var i :| 0 <= i < |ms| && ms[i] == m;
      var j :| 0 <= j < |ms| && ms[j] == n;
      assert Names(ms)[i] == Names(ms)[j];
    }
  }

  lemma NoPending(manifest: seq<Migration>, ledger: seq<Migration>)
    requires Distinct(Names(ledger))
    ensures Pending(manifest, ledger) == [] <==> forall m :: m in manifest ==> Recorded(ledger, m.name)
  {
    hide Checksums, Recorded;
    var missing := Filter(manifest, (m: Migration) => m.name !in Checksums(ledger));
    FilterMembers(manifest, (m: Migration) => m.name !in Checksums(ledger));
    NamesEmpty(missing);
    forall m: Migration
      ensures m.name in Checksums(ledger) <==> Recorded(ledger, m.name)
    {
      ChecksumOf(ledger, m);
    }
    if missing != [] {
      assert missing[0] in missing;
    }
  }

  lemma ChecksumOf(ms: seq<Migration>, m: Migration)
    requires Distinct(Names(ms))
    ensures m.name in Checksums(ms) <==> Recorded(ms, m.name)
    ensures m.name in Checksums(ms) ==> (Checksums(ms)[m.name] == m.checksum <==> m in ms)
  {
    ChecksumsAre(ms);
    RecordedNames(ms, m.name);
  }

  lemma MissingName(manifest: seq<Migration>, ledger: seq<Migration>, missing: seq<Migration>, m: Migration)
    requires m in manifest && forall x :: x in missing <==> x in manifest && x.name !in Checksums(ledger)
    requires m.name in Checksums(ledger) <==> Recorded(ledger, m.name)
    ensures Recorded(missing, m.name) <==> !Recorded(ledger, m.name)
  {
    if m.name !in Checksums(ledger) {
      assert m in missing && m == Migration(m.name, m.checksum);
    }
  }

  // ---- One run

  datatype RunError = IntegrityFailed(changed: seq<string>,
                                      unexpected: seq<string>) | SqlFailed(name: string) | RolesFailed

  /** One database session: the committed and the visible state, and the advisory lock. */
  class Session {
    var ledger: seq<Migration>
    var executed: seq<Migration>
    var savedLedger: seq<Migration>
    var savedExecuted: seq<Migration>
    var inTransaction: bool
    var locked: bool

    ghost predicate Idle()
      reads this
    {
      !inTransaction && ledger == executed
    }

    method Lock()
      requires !locked
      modifies this`locked
      ensures locked
    {
      locked := true;
    }

    method Unlock()
      modifies this`locked
      ensures !locked
    {
      locked := false;
    }

    method Begin()
      requires !inTransaction
      modifies this`savedLedger, this`savedExecuted, this`inTransaction
      ensures inTransaction && savedLedger == ledger && savedExecuted == executed
    {
      savedLedger, savedExecuted, inTransaction := ledger, executed, true;
    }

    method Execute(m: Migration)
      requires inTransaction
      modifies this`executed
      ensures executed == old(executed) + [m]
    {
      executed := executed + [m];
    }

    method Insert(m: Migration)
      requires inTransaction
      modifies this`ledger
      ensures ledger == old(ledger) + [m]
    {
      ledger := ledger + [m];
    }

    method Commit()
      requires inTransaction
      modifies this`inTransaction
      ensures !inTransaction
    {
      inTransaction := false;
    }

    method Rollback()
      requires inTransaction
      modifies this
      ensures !inTransaction && ledger == old(savedLedger) && executed == old(savedExecuted) && locked == old(locked)
    {
      ledger, executed, inTransaction := savedLedger, savedExecuted, false;
    }
  }

  /** The pending migrations that a run applies: in manifest order, up to the first that fails. */
  function Applied(manifest: seq<Migration>, pending: seq<string>, fails: Migration -> bool): seq<Migration> {
    if manifest == [] then []
    else if manifest[0].name !in pending then Applied(manifest[1..], pending, fails)
    else if fails(manifest[0]) then []
    else [manifest[0]] + Applied(manifest[1..], pending, fails)
  }

  predicate AnyFails(manifest: seq<Migration>, pending: seq<string>, fails: Migration -> bool) {
    exists i :: 0 <= i < |manifest| && manifest[i].name in pending && fails(manifest[i])
  }

  lemma {:induction false} AppliedAll(manifest: seq<Migration>, pending: seq<string>, fails: Migration -> bool, n: nat)
    requires n <= |manifest| && forall i :: 0 <= i < n ==> manifest[i].name in pending ==> !fails(manifest[i])
    ensures Applied(manifest, pending, fails)
         == Filter(manifest[..n], (m: Migration) => m.name in pending) + Applied(manifest[n..], pending, fails)
  {
    if n == 0 {
      assert manifest[0..] == manifest;
    } else {
      AppliedAll(manifest, pending, fails, n - 1);
      assert DropLast(manifest[..n]) == manifest[..n - 1];
      assert manifest[n - 1..][1..] == manifest[n..];
    }
  }

  /** The migration script on its own: it refuses a ledger that does not fit, otherwise applies the pending migrations
      in manifest order until one fails, undoes the failing one, and releases the lock on every path. */
  method Migrate(session: Session, manifest: seq<Migration>, fails: Migration -> bool,
                 rolesFail: bool) returns (r: Result<(), RunError>)
    requires session.Idle() && !session.locked
    modifies session
    ensures !session.locked && session.Idle()
    ensures var c := CompareLedger(manifest, old(session.ledger));
            if c.changed != [] || c.unexpected != [] then
              r == Failure(IntegrityFailed(c.changed, c.unexpected)) && session.ledger == old(session.ledger)
            else
              && session.ledger == old(session.ledger) + Applied(manifest, c.pending, fails)
              && (r.Success? <==> !AnyFails(manifest, c.pending, fails) && !rolesFail)
  {
    hide CompareLedger, Applied;
    session.Lock();
    ghost var before := session.ledger;
    var comparison := CompareLedger(manifest, session.ledger);
    if comparison.changed != [] || comparison.unexpected != [] {
      session.Unlock();
      return Failure(IntegrityFailed(comparison.changed, comparison.unexpected));
    }
    var pending := comparison.pending;
    for i := 0 to |manifest|
      invariant session.locked && session.Idle()
      invariant forall j :: 0 <= j < i ==> manifest[j].name in pending ==> !fails(manifest[j])
      invariant session.ledger == before + Filter(manifest[..i], (m: Migration) => m.name in pending)
    {
      assert DropLast(manifest[..i + 1]) == manifest[..i] && Last(manifest[..i + 1]) == manifest[i];
      var migration := manifest[i];
      if migration.name in pending {
        session.Begin();
        session.Execute(migration);
        if fails(migration) {
          session.Rollback();
          session.Unlock();
          AppliedAll(manifest, pending, fails, i);
          AppliedStops(manifest[i..], pending, fails);
          return Failure(SqlFailed(migration.name));
        }
        session.Insert(migration);
        session.Commit();
      }
    }
    AppliedAll(manifest, pending, fails, |manifest|);
    AppliedEnds(manifest[|manifest|..], pending, fails);
    assert manifest[..|manifest|] == manifest;
    session.Begin();
    if rolesFail {
      session.Rollback();
      session.Unlock();
      return Failure(RolesFailed);
    }
    session.Commit();
    session.Unlock();
    r := Success(());
  }

  lemma AppliedStops(manifest: seq<Migration>, pending: seq<string>, fails: Migration -> bool)
    requires manifest != [] && manifest[0].name in pending && fails(manifest[0])
    ensures Applied(manifest, pending, fails) == []
  {
  }

  lemma AppliedEnds(manifest: seq<Migration>, pending: seq<string>, fails: Migration -> bool)
    requires manifest == []
    ensures Applied(manifest, pending, fails) == []
  {
  }

  /** A run without a failure leaves a ledger that is current, so the next run applies nothing. */
  lemma MigratedIsCurrent(manifest: seq<Migration>, ledger: seq<Migration>, fails: Migration -> bool)
    requires Distinct(Names(manifest)) && Distinct(Names(ledger))
    requires var c := CompareLedger(manifest, ledger);
             c.changed == [] && c.unexpected == [] && !AnyFails(manifest, c.pending, fails)
    ensures var after := ledger + Applied(manifest, CompareLedger(manifest, ledger).pending, fails);
            && Distinct(Names(after)) && CompareLedger(manifest, after).current
            && CompareLedger(manifest, after).pending == []
  {
    hide Recorded, Pending, Changed, Unexpected, Applied;
    var pending := Pending(manifest, ledger);
    var more := Filter(manifest, (m: Migration) => m.name in pending);
    AppliedToAll(manifest, pending, fails);
    ComparisonMeans(manifest, ledger);
    FilterMembers(manifest, (m: Migration) => m.name in pending);
    forall m: Migration
      ensures m in manifest ==> Recorded(manifest, m.name)
      ensures m in ledger ==> Recorded(ledger, m.name)
    {
      ItsName(manifest, m);
      ItsName(ledger, m);
    }
    var after := ledger + more;
    assert after == ledger + Applied(manifest, CompareLedger(manifest, ledger).pending, fails);
    NamesStayDistinct(manifest, ledger, more);
    forall m
      ensures m in manifest <==> m in after
    {
      if m in ledger {
        var x := WithName(manifest, m.name);
        SameName(ledger, x, m);
      }
    }
    ComparisonCounts(manifest, after);
  }

  lemma AppliedToAll(manifest: seq<Migration>, pending: seq<string>, fails: Migration -> bool)
    requires !AnyFails(manifest, pending, fails)
    ensures Applied(manifest, pending, fails) == Filter(manifest, (m: Migration) => m.name in pending)
  {
    AppliedAll(manifest, pending, fails, |manifest|);
    AppliedEnds(manifest[|manifest|..], pending, fails);
    assert manifest[..|manifest|] == manifest;
  }

  lemma DistinctJoin(a: seq<string>, b: seq<string>)
    requires Distinct(a) && Distinct(b) && forall i, j :: 0 <= i < |a| && 0 <= j < |b| ==> a[i] != b[j]
    ensures Distinct(a + b)
  {
  }

  lemma DistinctPart(manifest: seq<Migration>, pending: seq<string>)
    requires Distinct(Names(manifest))
    ensures Distinct(Names(Filter(manifest, (m: Migration) => m.name in pending)))
  {
    FilterMap(manifest, (m: Migration) => m.name, (m: Migration) => m.name in pending,
              (name: string) => name in pending);
    FilterDistinct(Names(manifest), (name: string) => name in pending);
  }

  lemma NamesStayDistinct(manifest: seq<Migration>, ledger: seq<Migration>, more: seq<Migration>)
    requires Distinct(Names(manifest)) && Distinct(Names(ledger))
    requires more == Filter(manifest, (m: Migration) => m.name in Pending(manifest, ledger))
    requires forall m :: m in manifest && m.name in Pending(manifest, ledger) ==> !Recorded(ledger, m.name)
    ensures Distinct(Names(ledger + more))
  {
    hide Recorded, Pending, Distinct, Filter;
    var pending := Pending(manifest, ledger);
    FilterMembers(manifest, (m: Migration) => m.name in pending);
    DistinctPart(manifest, pending);
    assert Names(ledger + more) == Names(ledger) + Names(more);
    forall i, j | 0 <= i < |ledger| && 0 <= j < |more|
      ensures Names(ledger)[i] != Names(more)[j]
    {
      assert more[j] in more;
      ItsName(ledger, ledger[i]);
    }
    DistinctJoin(Names(ledger), Names(more));
  }
}
