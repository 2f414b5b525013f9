/** Many migration runs against one database, interleaved step by step, with failing scripts and crashes anywhere. */
module MigrationProtocol {
  import opened Prelude
  import opened Migrations

  datatype Phase =
    | Waiting                                  // before `pg_advisory_lock` returns
    | Locked                                   // lock taken, ledger not read yet
    | Running                                  // between two migrations
    | InTransaction(ran: bool, inserted: bool) // the transaction of the next migration
    | Releasing(ok: bool)                      // about to unlock
    | Ended(ok: bool)
    | Crashed

  /** A run: the manifest it read, what it found pending, how far it is, and what it has committed. */
  datatype Run = Run(manifest: seq<Migration>, phase: Phase, pending: seq<string>, next: nat, committed: seq<Migration>)

  /** The committed database and the runs; `executed` lists the migrations whose scripts have taken effect. */
  datatype State = State(ledger: seq<Migration>, executed: seq<Migration>, holder: Option<nat>, runs: map<nat, Run>)

  datatype Event =
    | Start(id: nat, manifest: seq<Migration>) | Acquire(id: nat) | Read(id: nat) | Skip(id: nat) | Begin(id: nat)
    | RunScript(id: nat) | Insert(id: nat) | Commit(id: nat) | Fail(id: nat) | GrantRoles(id: nat) | Release(id: nat)
    | Crash(id: nat)

  predicate HoldsLock(p: Phase) {
    p.Locked? || p.Running? || p.InTransaction? || p.Releasing?
  }

  function With(s: State, id: nat, run: Run): State {
    s.(runs := s.runs[id := run])
  }

  /** One step; `None` when it is not enabled. */
  function Step(s: State, e: Event): Option<State> {
    if e.Start? then
      if e.id in s.runs || Names(e.manifest) != Unique(Names(e.manifest)) then None
      else Some(With(s, e.id, Run(e.manifest, Waiting, [], 0, [])))
    else if e.id !in s.runs then None
    else
      var run := s.runs[e.id];
      match e
      case Acquire(id) =>
        if run.phase.Waiting? && s.holder.None? then Some(With(s, id, run.(phase := Locked)).(holder := Some(id)))
        else None
      case Read(id) =>
        if !run.phase.Locked? then None
        else
          var c := CompareLedger(run.manifest, s.ledger);
          if c.changed != [] || c.unexpected != [] then Some(With(s, id, run.(phase := Releasing(false))))
          else Some(With(s, id, run.(phase := Running, pending := c.pending)))
      case Skip(id) =>
        if run.phase.Running? && run.next < |run.manifest| && run.manifest[run.next].name !in run.pending
        then Some(With(s, id, run.(next := run.next + 1))) else None
      case Begin(id) =>
        if run.phase.Running? && run.next < |run.manifest| && run.manifest[run.next].name in run.pending
        then Some(With(s, id, run.(phase := InTransaction(false, false)))) else None
      case RunScript(id) =>
        if run.phase == InTransaction(false, false) then Some(With(s, id, run.(phase := InTransaction(true, false))))
        else None
      case Insert(id) =>
        // the primary key of the ledger refuses a name that is already there
        if run.phase == InTransaction(true, false) && run.next < |run.manifest|
           && run.manifest[run.next].name !in Names(s.ledger)
        then Some(With(s, id, run.(phase := InTransaction(true, true)))) else None
      case Commit(id) =>
        if !run.phase.InTransaction? || run.next >= |run.manifest| || !run.phase.inserted then None
        else
          var m := run.manifest[run.next];
          Some(With(s, id, run.(phase := Running, next := run.next + 1, committed := run.committed + [m]))
               .(ledger := s.ledger + [m], executed := if run.phase.ran then s.executed + [m] else s.executed))
      case Fail(id) =>
        // an error in a transaction, rolled back; also in the last one, which sets the roles' passwords
        if run.phase.InTransaction? || (run.phase.Running? && run.next == |run.manifest|)
        then Some(With(s, id, run.(phase := Releasing(false)))) else None
      case GrantRoles(id) =>
        if run.phase.Running? && run.next == |run.manifest| then Some(With(s, id, run.(phase := Releasing(true))))
        else None
      case Release(id) =>
        if run.phase.Releasing? then Some(With(s, id, run.(phase := Ended(run.phase.ok))).(holder := None)) else None
      case Crash(id) =>
        // the session ends: its transaction is rolled back and its lock released
        if run.phase.Ended? || run.phase.Crashed? then None
        else Some(With(s, id, run.(phase := Crashed)).(holder := if s.holder == Some(id) then None else s.holder))
  }

  /** All steps of an interleaving. */
  function After(s: State, es: seq<Event>): Option<State> {
    if es == [] then Some(s)
    else match After(s, DropLast(es)) case None => None case Some(t) => Step(t, Last(es))
  }

  // ---- The invariant

  /** Every migration of the list is in the ledger. */
  ghost predicate AllRecorded(ms: seq<Migration>, ledger: seq<Migration>) {
    forall i :: 0 <= i < |ms| ==> ms[i] in ledger
  }

  /** What the holder of the lock knows about the ledger: it fits the manifest, everything before `next` is in it, and
      what comes from `next` on is in it exactly if it is not pending. */
  ghost predicate Knows(run: Run, ledger: seq<Migration>) {
    && run.next <= |run.manifest|
    && AllRecorded(run.manifest[..run.next], ledger)
    && (forall j :: run.next <= j < |run.manifest| ==>
                      (run.manifest[j].name in run.pending <==> !Recorded(ledger, run.manifest[j].name)))
    && (forall j :: run.next <= j < |run.manifest| && Recorded(ledger, run.manifest[j].name) ==>
                      run.manifest[j] in ledger)
    && (forall m :: m in ledger ==> Recorded(run.manifest, m.name))
  }

  function PendingUpTo(run: Run): seq<Migration>
    requires run.next <= |run.manifest|
  {
    Filter(run.manifest[..run.next], (m: Migration) => m.name in run.pending)
  }

  /** The transaction is the one of the next pending migration, and records it only after running its script. */
  predicate InPlace(run: Run)
    requires run.phase.InTransaction?
  {
    run.next < |run.manifest| && run.manifest[run.next].name in run.pending && (run.phase.inserted ==> run.phase.ran)
  }

  ghost predicate RunOk(run: Run, ledger: seq<Migration>) {
    && Distinct(Names(run.manifest))
    && run.next <= |run.manifest| && run.committed == PendingUpTo(run) && AllRecorded(run.committed, ledger)
    && (run.phase.Running? ==> Knows(run, ledger))
    && (run.phase.InTransaction? ==> Knows(run, ledger) && InPlace(run))
    && (run.phase.Waiting? || run.phase.Locked? ==> run.next == 0)
    && (run.phase == Releasing(true) || run.phase == Ended(true) ==>
          AllRecorded(run.manifest, ledger) && run.next == |run.manifest|)
  }

  ghost predicate LockOk(s: State) {
    && (forall id :: id in s.runs && HoldsLock(s.runs[id].phase) ==> s.holder == Some(id))
    && (s.holder.Some? ==> s.holder.value in s.runs && HoldsLock(s.runs[s.holder.value].phase))
  }

  /** The ledger is the list of executed migrations, without repeats; at most one run holds the lock; and every run is
      in order. */
  ghost predicate Inv(s: State) {
    && s.ledger == s.executed && Distinct(Names(s.ledger))
    && LockOk(s)
    && forall id :: id in s.runs ==> RunOk(s.runs[id], s.ledger)
  }

  // ---- Every step keeps it

  lemma UniqueNames(names: seq<string>)
    requires names == Unique(names)
    ensures Distinct(names)
  {
    UniqueIsSet(names);
  }

  lemma ReadKnows(run: Run, ledger: seq<Migration>)
    requires RunOk(run, ledger) && run.phase.Locked? && Distinct(Names(ledger))
    requires var c := CompareLedger(run.manifest, ledger); c.changed == [] && c.unexpected == []
    ensures RunOk(run.(phase := Running, pending := CompareLedger(run.manifest, ledger).pending), ledger)
  {
    hide CompareLedger, Recorded;
    ComparisonMeans(run.manifest, ledger);
    forall j | 0 <= j < |run.manifest|
      ensures run.manifest[j] in run.manifest
    {
    }
  }

  lemma SkipKnows(run: Run, ledger: seq<Migration>)
    requires RunOk(run, ledger) && run.phase.Running? && run.next < |run.manifest|
             && run.manifest[run.next].name !in run.pending
    ensures RunOk(run.(next := run.next + 1), ledger)
  {
    hide Recorded;
    NextPending(run);
    assert run.manifest[run.next] in ledger;
  }

  lemma NextPending(run: Run)
    requires run.next < |run.manifest|
    ensures var m := run.manifest[run.next];
            PendingUpTo(run.(next := run.next + 1)) == PendingUpTo(run) + if m.name in run.pending then [m] else []
  {
    assert DropLast(run.manifest[..run.next + 1]) == run.manifest[..run.next];
  }

  lemma RecordedAfter(ledger: seq<Migration>, m: Migration, name: string)
    ensures Recorded(ledger + [m], name) <==> Recorded(ledger, name) || name == m.name
  {
    if Recorded(ledger, name) {
      var sum :| Migration(name, sum) in ledger;
      assert Migration(name, sum) in ledger + [m];
    }
    if name == m.name {
      assert Migration(name, m.checksum) in ledger + [m];
    }
  }

  lemma CommitKnows(run: Run, ledger: seq<Migration>)
    requires RunOk(run, ledger) && run.phase.InTransaction?
    ensures var m := run.manifest[run.next];
            RunOk(run.(phase := Running, next := run.next + 1, committed := run.committed + [m]), ledger + [m])
  {
    var m := run.manifest[run.next];
    NextPending(run);
    forall j | run.next + 1 <= j < |run.manifest|
      ensures run.manifest[j].name != m.name
      ensures Recorded(ledger + [m], run.manifest[j].name) <==> Recorded(ledger, run.manifest[j].name)
    {
      assert Names(run.manifest)[run.next] != Names(run.manifest)[j];
      RecordedAfter(ledger, m, run.manifest[j].name);
    }
    assert Migration(m.name, m.checksum) in run.manifest;
    hide Recorded;
  }

  /** A ledger only grows, and a run that does not hold the lock is not affected. */
  lemma OthersKeep(run: Run, ledger: seq<Migration>, m: Migration)
    requires RunOk(run, ledger) && (!HoldsLock(run.phase) || run.phase.Releasing? || run.phase.Locked?)
    ensures RunOk(run, ledger + [m])
  {
  }

  lemma NameIsNew(ledger: seq<Migration>, m: Migration)
    requires Distinct(Names(ledger)) && !Recorded(ledger, m.name)
    ensures Distinct(Names(ledger + [m]))
  {
    NamesMembers(ledger, m.name);
    assert Names(ledger + [m]) == Names(ledger) + [m.name];
  }

  lemma CommitKeeps(s: State, id: nat)
    requires Inv(s) && Step(s, Commit(id)).Some?
    ensures Inv(Step(s, Commit(id)).value)
  {
    hide RunOk, Recorded;
    var run := s.runs[id];
    InTransactionFacts(run, s.ledger);
    var m := run.manifest[run.next];
    NameIsNew(s.ledger, m);
    CommitKnows(run, s.ledger);
    forall other | other in s.runs && other != id
      ensures RunOk(s.runs[other], s.ledger + [m])
    {
      OthersKeep(s.runs[other], s.ledger, m);
    }
  }

  lemma InTransactionFacts(run: Run, ledger: seq<Migration>)
    requires RunOk(run, ledger) && run.phase.InTransaction?
    ensures run.next < |run.manifest| && !Recorded(ledger, run.manifest[run.next].name)
    ensures run.phase.inserted ==> run.phase.ran
  {
  }

  /** Steps that leave ledger and executed list alone. */
  lemma QuietStep(s: State, e: Event)
    requires Inv(s) && Step(s, e).Some? && !e.Commit?
    ensures Inv(Step(s, e).value)
  {
    hide Knows, AllRecorded, Recorded, CompareLedger, Names, Distinct, PendingUpTo;
    if e.Start? {
      hide RunOk;
      StartOk(e.manifest, s.ledger);
    } else {
      hide RunOk;
      var run := s.runs[e.id];
      StepOk(s, e);
    }
  }

  lemma StartOk(manifest: seq<Migration>, ledger: seq<Migration>)
    requires Names(manifest) == Unique(Names(manifest))
    ensures RunOk(Run(manifest, Waiting, [], 0, []), ledger)
  {
    UniqueNames(Names(manifest));
  }

  /** Giving up, ending and crashing need nothing. */
  lemma PhaseChange(run: Run, phase: Phase, ledger: seq<Migration>)
    requires RunOk(run, ledger)
    requires phase == Crashed || phase == Releasing(false) || phase == Ended(false)
             || (phase.Locked? && run.phase.Waiting?)
             || (phase == Ended(true) && run.phase == Releasing(true))
    ensures RunOk(run.(phase := phase), ledger)
  {
    hide Knows, AllRecorded, Names, Distinct;
  }

  lemma TransactionChange(run: Run, ran: bool, inserted: bool, ledger: seq<Migration>)
    requires RunOk(run, ledger) && (inserted ==> ran)
    requires run.phase.InTransaction? || (run.phase.Running? && run.next < |run.manifest|
                                          && run.manifest[run.next].name in run.pending)
    ensures RunOk(run.(phase := InTransaction(ran, inserted)), ledger)
  {
    hide AllRecorded, Recorded, Names, Distinct;
  }

  lemma RolesGranted(run: Run, ledger: seq<Migration>)
    requires RunOk(run, ledger) && run.phase.Running? && run.next == |run.manifest|
    ensures RunOk(run.(phase := Releasing(true)), ledger)
  {
    hide Recorded, Names, Distinct;
    assert run.manifest[..run.next] == run.manifest;
  }

  /** The run that steps stays in order. */
  lemma StepOk(s: State, e: Event)
    requires Inv(s) && Step(s, e).Some? && !e.Commit? && !e.Start?
    ensures RunOk(Step(s, e).value.runs[e.id], s.ledger)
  {
    hide RunOk, Recorded, CompareLedger, Names, Distinct, LockOk;
    var run := s.runs[e.id];
    match e
    case Acquire(id) => PhaseChange(run, Locked, s.ledger);
    case Read(id) =>
      var c := CompareLedger(run.manifest, s.ledger);
      if c.changed != [] || c.unexpected != [] {
        PhaseChange(run, Releasing(false), s.ledger);
      } else {
        ReadKnows(run, s.ledger);
      }
    case Skip(id) => SkipKnows(run, s.ledger);
    case Begin(id) => TransactionChange(run, false, false, s.ledger);
    case RunScript(id) => TransactionChange(run, true, false, s.ledger);
    case Insert(id) => TransactionChange(run, true, true, s.ledger);
    case Fail(id) => PhaseChange(run, Releasing(false), s.ledger);
    case GrantRoles(id) => RolesGranted(run, s.ledger);
    case Release(id) => PhaseChange(run, Ended(run.phase.ok), s.ledger);
    case Crash(id) => PhaseChange(run, Crashed, s.ledger);
  }

  lemma StepKeeps(s: State, e: Event)
    requires Inv(s) && Step(s, e).Some?
    ensures Inv(Step(s, e).value) && s.ledger <= Step(s, e).value.ledger
  {
    if e.Commit? {
      CommitKeeps(s, e.id);
      LedgerGrows(s, e);
    } else {
      QuietStep(s, e);
      LedgerGrows(s, e);
    }
  }

  lemma LedgerGrows(s: State, e: Event)
    requires Step(s, e).Some?
    ensures s.ledger <= Step(s, e).value.ledger
  {
    hide CompareLedger, Names;
  }

  // ---- Over every interleaving

  /** No run yet, and a ledger without repeats that records what was executed. */
  ghost predicate Initial(s: State) {
    s.ledger == s.executed && Distinct(Names(s.ledger)) && s.holder.None? && s.runs == map[]
  }

  lemma {:induction false} InvAlways(s: State, es: seq<Event>)
    requires Inv(s) && After(s, es).Some?
    ensures Inv(After(s, es).value) && s.ledger <= After(s, es).value.ledger
  {
    hide Inv, Step;
    if es != [] {
      InvAlways(s, DropLast(es));
      StepKeeps(After(s, DropLast(es)).value, Last(es));
    }
  }

  /** Migrations under concurrency: in every state that any interleaving reaches, no migration has been executed twice
      and the ledger lists exactly the executed ones; two runs never hold the lock together; what a run has committed
      are its pending migrations in manifest order; and a run that ended well has left nothing of its manifest
      unrecorded, then and ever after. */
  lemma EveryInterleavingIsSafe(s: State, es: seq<Event>)
    requires Initial(s) && After(s, es).Some?
    ensures var t := After(s, es).value;
            && t.ledger == t.executed && Distinct(Names(t.executed)) && s.ledger <= t.ledger
            && (forall a, b :: a in t.runs && b in t.runs ==>
                                 HoldsLock(t.runs[a].phase) && HoldsLock(t.runs[b].phase) ==> a == b)
            && (forall id :: id in t.runs ==>
                               && t.runs[id].next <= |t.runs[id].manifest|
                               && t.runs[id].committed == PendingUpTo(t.runs[id]))
            && (forall id :: id in t.runs && t.runs[id].phase == Ended(true) ==>
                               && Pending(t.runs[id].manifest, t.ledger) == []
                               && Changed(t.runs[id].manifest, t.ledger) == [])
  {
    hide After, Knows, Pending, Changed, PendingUpTo;
    InvAlways(s, es);
    var t := After(s, es).value;
    forall id | id in t.runs && t.runs[id].phase == Ended(true)
      ensures Pending(t.runs[id].manifest, t.ledger) == [] && Changed(t.runs[id].manifest, t.ledger) == []
    {
      RecordedLeavesNothing(t.runs[id].manifest, t.ledger);
    }
  }

  lemma RecordedLeavesNothing(manifest: seq<Migration>, ledger: seq<Migration>)
    requires Distinct(Names(manifest)) && Distinct(Names(ledger)) && AllRecorded(manifest, ledger)
    ensures Pending(manifest, ledger) == [] && Changed(manifest, ledger) == []
  {
    hide Recorded;
    ComparisonMeans(manifest, ledger);
    var c := CompareLedger(manifest, ledger);
    forall m | m in manifest
      ensures m in ledger && m.name !in c.pending
    {
      var i :| 0 <= i < |manifest| && manifest[i] == m;
      InLedger(ledger, m);
    }
    PendingFromManifest(manifest, ledger);
  }

  lemma InLedger(ledger: seq<Migration>, m: Migration)
    requires m in ledger
    ensures Recorded(ledger, m.name)
  {
    assert m == Migration(m.name, m.checksum);
  }

  lemma PendingFromManifest(manifest: seq<Migration>, ledger: seq<Migration>)
    ensures Pending(manifest, ledger) != [] ==> exists m :: m in manifest && m.name in Pending(manifest, ledger)
  {
    var missing := Filter(manifest, (m: Migration) => m.name !in Checksums(ledger));
    FilterMembers(manifest, (m: Migration) => m.name !in Checksums(ledger));
    if missing != [] {
      assert missing[0] in missing && Names(missing)[0] == missing[0].name;
    }
  }

  // ---- One manifest for everybody

  ghost predicate SameManifest(s: State, manifest: seq<Migration>) {
    forall id :: id in s.runs ==> s.runs[id].manifest == manifest
  }

  predicate Starts(e: Event, manifest: seq<Migration>) {
    e.Start? ==> e.manifest == manifest
  }

  lemma CommitExtends(run: Run, ledger: seq<Migration>)
    requires RunOk(run, ledger) && run.phase.InTransaction? && ledger <= run.manifest
    ensures ledger == run.manifest[..run.next]
  {
    PrefixCovers(run.manifest, ledger, run.next);
    PrefixRecords(run.manifest, ledger, run.next);
  }

  /** A prefix that holds the first `n` migrations has at least `n`. */
  lemma PrefixCovers(manifest: seq<Migration>, ledger: seq<Migration>, n: nat)
    requires Distinct(Names(manifest)) && ledger <= manifest && n <= |manifest| && AllRecorded(manifest[..n], ledger)
    ensures n <= |ledger|
  {
    if n > 0 {
      assert manifest[..n][n - 1] == manifest[n - 1];
      var j :| 0 <= j < |ledger| && ledger[j] == manifest[n - 1];
      assert ledger[j] == manifest[j];
      assert Names(manifest)[j] == Names(manifest)[n - 1];
    }
  }

  lemma PrefixRecords(manifest: seq<Migration>, ledger: seq<Migration>, n: nat)
    requires ledger <= manifest && n < |manifest|
    ensures n < |ledger| ==> Recorded(ledger, manifest[n].name)
  {
    if n < |ledger| {
      assert ledger[n] == manifest[n];
      InLedger(ledger, ledger[n]);
    }
  }

  lemma PrefixStep(s: State, e: Event, manifest: seq<Migration>)
    requires Inv(s) && SameManifest(s, manifest) && s.ledger <= manifest && Starts(e, manifest) && Step(s, e).Some?
    ensures SameManifest(Step(s, e).value, manifest) && Step(s, e).value.ledger <= manifest
  {
    hide RunOk, CompareLedger, Names, Distinct, LockOk;
    if e.Commit? {
      var run := s.runs[e.id];
      CommitExtends(run, s.ledger);
    }
  }

  /** When every run reads the same manifest, the ledger is at all times a prefix of it: nothing is skipped or
      reordered, whichever runs fail or crash. */
  lemma {:induction false} LedgerIsPrefix(s: State, es: seq<Event>, manifest: seq<Migration>)
    requires Initial(s) && s.ledger <= manifest && After(s, es).Some? && forall e :: e in es ==> Starts(e, manifest)
    ensures After(s, es).value.ledger <= manifest && SameManifest(After(s, es).value, manifest)
  {
    hide Inv, Step, Starts;
    if es != [] {
      var d := DropLast(es);
      assert es == d + [Last(es)];
      LedgerIsPrefix(s, d, manifest);
      InitialInv(s);
      InvAlways(s, d);
      PrefixStep(After(s, d).value, Last(es), manifest);
    }
  }

  lemma InitialInv(s: State)
    requires Initial(s)
    ensures Inv(s)
  {
  }

  // ---- Nothing gets stuck

  predicate Finished(p: Phase) {
    p.Ended? || p.Crashed?
  }

  /** What a run does next when nothing fails. */
  function NextEvent(run: Run, id: nat): Event
    requires !Finished(run.phase)
  {
    match run.phase
    case Waiting => Acquire(id)
    case Locked => Read(id)
    case Running =>
      if run.next >= |run.manifest| then GrantRoles(id)
      else if run.manifest[run.next].name in run.pending then Begin(id) else Skip(id)
    case InTransaction(ran, inserted) => if inserted then Commit(id) else if ran then Insert(id) else RunScript(id)
    case Releasing(_) => Release(id)
  }

  /** The run that holds the lock can go on: in particular the ledger's primary key never refuses its insert. */
  lemma HolderGoesOn(s: State, id: nat)
    requires Inv(s) && id in s.runs && HoldsLock(s.runs[id].phase)
    ensures Step(s, NextEvent(s.runs[id], id)).Some?
  {
    hide CompareLedger, Distinct, PendingUpTo, AllRecorded;
    var run := s.runs[id];
    assert RunOk(run, s.ledger);
    if run.phase.InTransaction? {
      NamesMembers(s.ledger, run.manifest[run.next].name);
    }
  }

  /** From every state that keeps the invariant some run can take its next step, unless all have ended or crashed. */
  lemma SomeRunGoesOn(s: State, id: nat) returns (mover: nat)
    requires Inv(s) && id in s.runs && !Finished(s.runs[id].phase)
    ensures mover in s.runs && !Finished(s.runs[mover].phase) && Step(s, NextEvent(s.runs[mover], mover)).Some?
  {
    hide RunOk, CompareLedger, Names, Distinct;
    if s.holder.Some? {
      mover := s.holder.value;
      HolderGoesOn(s, mover);
    } else {
      assert s.runs[id].phase.Waiting?;
      mover := id;
    }
  }

  /** An upper bound for the steps a run still has before it. */
  function Remaining(run: Run): int {
    var rest := 5 * (|run.manifest| - run.next);
    match run.phase
    case Waiting => rest + 4
    case Locked => rest + 3
    case Running => rest + 2
    case InTransaction(ran, inserted) => if inserted then rest - 1 else if ran then rest else rest + 1
    case Releasing(_) => 1
    case Ended(_) => 0
    case Crashed => 0
  }

  lemma StepsCount(s: State, e: Event)
    requires Inv(s) && Step(s, e).Some? && !e.Start?
    ensures e.id in s.runs && 0 <= Remaining(Step(s, e).value.runs[e.id]) < Remaining(s.runs[e.id])
    ensures Step(s, e).value.runs[e.id].manifest == s.runs[e.id].manifest
    ensures Step(s, e).value.runs.Keys == s.runs.Keys
    ensures forall id :: id in s.runs && id != e.id ==> Step(s, e).value.runs[id] == s.runs[id]
  {
    hide CompareLedger, Names, Distinct, PendingUpTo, AllRecorded, Recorded, LockOk;
    var run := s.runs[e.id];
    assert RunOk(run, s.ledger);
  }

  function StepsOf(es: seq<Event>, id: nat): nat {
    if es == [] then 0 else StepsOf(DropLast(es), id) + if !Last(es).Start? && Last(es).id == id then 1 else 0
  }

  /** A run that has not started has taken no step; one that has takes at most five steps for each migration and four
      more. */
  lemma {:induction false} RunsAreShort(s: State, es: seq<Event>, id: nat)
    requires Initial(s) && After(s, es).Some?
    ensures var t := After(s, es).value;
            if id in t.runs then StepsOf(es, id) + Remaining(t.runs[id]) <= 5 * |t.runs[id].manifest| + 4
            else StepsOf(es, id) == 0
  {
    hide Inv, Step, Remaining;
    if es != [] {
      var d, e := DropLast(es), Last(es);
      RunsAreShort(s, d, id);
      InitialInv(s);
      InvAlways(s, d);
      var before := After(s, d).value;
      if e.Start? {
        StartCounts(before, e);
      } else {
        StepsCount(before, e);
      }
    }
  }

  lemma StartCounts(s: State, e: Event)
    requires Step(s, e).Some? && e.Start?
    ensures e.id !in s.runs && Step(s, e).value.runs == s.runs[e.id := Step(s, e).value.runs[e.id]]
    ensures var run := Step(s, e).value.runs[e.id]; Remaining(run) == 5 * |run.manifest| + 4
  {
  }

  /** Liveness of the protocol: in every state that any interleaving reaches, either all runs have ended or crashed, or
      some run can take its next step without a failure; and since each run takes at most 5 n + 4 steps for a manifest
      of n migrations, an interleaving can only stop where all have ended or crashed. */
  lemma EveryInterleavingEnds(s: State, es: seq<Event>)
    requires Initial(s) && After(s, es).Some?
    ensures var t := After(s, es).value;
            && (forall id :: id in t.runs ==> StepsOf(es, id) <= 5 * |t.runs[id].manifest| + 4)
            && ((forall id :: id in t.runs ==> Finished(t.runs[id].phase)) <==>
                (forall id :: id in t.runs && !Finished(t.runs[id].phase) ==> Step(t, NextEvent(t.runs[id], id)).None?))
  {
    hide After, Step, Inv, StepsOf, Remaining, NextEvent;
    InitialInv(s);
    InvAlways(s, es);
    var t := After(s, es).value;
    forall id | id in t.runs
      ensures StepsOf(es, id) <= 5 * |t.runs[id].manifest| + 4
    {
      RunsAreShort(s, es, id);
      RemainingIsNatural(t, id);
    }
    if id :| id in t.runs && !Finished(t.runs[id].phase) {
      var mover := SomeRunGoesOn(t, id);
    }
  }

  lemma RemainingIsNatural(s: State, id: nat)
    requires Inv(s) && id in s.runs
    ensures Remaining(s.runs[id]) >= 0
  {
    hide Knows, PendingUpTo, AllRecorded, Names, Distinct, LockOk;
    assert RunOk(s.runs[id], s.ledger);
  }

  /** A run that is about to end badly has failed in a transaction or has read a ledger that does not fit its manifest;
      one that is about to end well has been through its whole manifest. */
  lemma EndsBadlyOnlyFor(s: State, e: Event)
    requires !e.Start? && Step(s, e).Some? && e.id in s.runs
    requires Step(s, e).value.runs[e.id].phase.Releasing? && !s.runs[e.id].phase.Releasing?
    ensures var run, ok := s.runs[e.id], Step(s, e).value.runs[e.id].phase.ok;
            && (!ok <==> e.Fail? || (e.Read? && !Fits(run.manifest, s.ledger)))
            && (ok ==> run.next == |run.manifest| && Step(s, e).value.ledger == s.ledger)
  {
    hide CompareLedger;
  }

  /** Nothing recorded is missing from the manifest or has another checksum there. */
  predicate Fits(manifest: seq<Migration>, ledger: seq<Migration>) {
    CompareLedger(manifest, ledger).changed == [] && CompareLedger(manifest, ledger).unexpected == []
  }
}
