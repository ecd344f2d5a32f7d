/**
 Runs that show why the assumptions of `PrivilegeReferences` and
 `PrivilegeOwnership` are needed: extension after expiry, a batch whose tables
 are all partial, a batch naming a privilege twice, and a failed check on a
 lease that was already revoked.
 */
module PrivilegeHazards {
  import opened PrivilegeLease
  import opened PrivilegeLeaks
  import opened PrivilegeOffline
  import opened PrivilegeOwnership

  // ---- small imports and offlines, written out ---------------------------------------------------------

  function Filled(w: World, expires: int, attempts: seq<Attempt>): World {
    AfterGrantRows(w.(batches := w.batches + [Batch(Running, expires, false)],
                      tables := w.tables + [Table(|w.batches|, Running)]),
                   |w.batches|, |w.tables|, attempts, |attempts|)
  }

  /** What an import of one table makes of the world, given the world after its rows and the roll-up of the table. */
  function WithOneTable(w: World, filled: World, expires: int, phase: Phase): World {
    filled.(batches := w.batches + [Batch(if phase == Succeeded then Succeeded else Failed, expires, false)],
            tables := w.tables + [Table(|w.batches|, phase)])
  }

  lemma ImportTable(w: World, expires: int, attempts: seq<Attempt>)
    requires w.now < expires
    ensures var filled := Filled(w, expires, attempts);
            AfterImport(w, expires, [attempts])
            == WithOneTable(w, filled, expires, RollUp(CountGranted(filled.rows, |w.rows|), |attempts|))
  {
    var b, t := |w.batches|, |w.tables|;
    var start := w.(batches := w.batches + [Batch(Running, expires, false)]);
    var filled := Filled(w, expires, attempts);
    var last := Table(b, RollUp(CountGranted(filled.rows, |w.rows|), |attempts|));
    var closed := AfterImportTable(start, b, attempts);
    assert closed == filled.(tables := w.tables + [last]);
    ImportsOne(start, b, attempts);
    ClosingOne(w, filled, expires, last);
  }

  lemma ImportsOne(w: World, b: nat, attempts: seq<Attempt>)
    ensures AfterImportTables(w, b, [attempts], 1) == AfterImportTable(w, b, attempts)
  {
    assert AfterImportTables(w, b, [attempts], 0) == w;
  }

  lemma ClosingOne(w: World, filled: World, expires: int, last: Table)
    requires last.batch == |w.batches| && filled.batches == w.batches + [Batch(Running, expires, false)]
    requires last.phase == Succeeded || last.phase == Failed || last.phase == Partial
    ensures AfterCloseBatch(filled.(tables := w.tables + [last]), |w.batches|, |w.tables|)
            == WithOneTable(w, filled, expires, last.phase)
  {
    assert (w.tables + [last])[..|w.tables|] == w.tables;
    assert CountSucceeded(w.tables + [last], |w.tables|) == if last.phase == Succeeded then 1 else 0;
  }

  /** An import of one table for one user. */
  function WithOneRow(w: World, expires: int, a: Attempt): World {
    var failed := AcquireMark(w, a.key, a.fault) == GrantFailed;
    AfterAcquire(w, a.key, a.fault).(
      batches := w.batches + [Batch(if failed then Failed else Succeeded, expires, false)],
      tables := w.tables + [Table(|w.batches|, if failed then Failed else Succeeded)],
      rows := w.rows + [NewRow(w, |w.batches|, |w.tables|, a)])
  }

  lemma ImportOne(w: World, expires: int, a: Attempt)
    requires w.now < expires
    ensures AfterImport(w, expires, [[a]]) == WithOneRow(w, expires, a)
  {
    ImportTable(w, expires, [a]);
    FilledOne(w, expires, a);
    CountOne(w.rows, NewRow(w, |w.batches|, |w.tables|, a));
  }

  lemma FilledOne(w: World, expires: int, a: Attempt)
    ensures Filled(w, expires, [a])
            == AfterAcquire(w, a.key, a.fault).(
                 batches := w.batches + [Batch(Running, expires, false)],
                 tables := w.tables + [Table(|w.batches|, Running)],
                 rows := w.rows + [NewRow(w, |w.batches|, |w.tables|, a)])
  {
    var begun := w.(batches := w.batches + [Batch(Running, expires, false)],
                    tables := w.tables + [Table(|w.batches|, Running)]);
    assert AfterGrantRows(begun, |w.batches|, |w.tables|, [a], 0) == begun;
  }

  lemma CountOne(rows: seq<Row>, last: Row)
    ensures CountGranted(rows + [last], |rows|) == if last.grant != GrantFailed then 1 else 0
  {
    assert (rows + [last])[..|rows|] == rows;
  }

  lemma {:induction false} RowsWithOne(p: Pass, t: nat, i: nat, n: nat)
    requires i < |p.w.rows| && n <= |p.w.rows|
    requires forall j :: 0 <= j < |p.w.rows| && j != i ==> p.w.rows[j].table != t
    ensures PassRows(p, t, {}, n) == if n <= i then p else PassRow(p, t, i, {})
  {
    if n > 0 {
      RowsWithOne(p, t, i, n - 1);
    }
  }

  lemma {:induction false} TablesWithOne(p: Pass, b: nat, t: nat, n: nat)
    requires t < |p.w.tables| && n <= |p.w.tables|
    requires forall u :: 0 <= u < |p.w.tables| && u != t ==> p.w.tables[u].batch != b
    ensures PassTables(p, b, {}, n) == if n <= t then p else PassTable(p, b, t, {})
  {
    if n > 0 {
      TablesWithOne(p, b, t, n - 1);
    }
  }

  lemma {:induction false} Unreferenced(w: World, k: Privilege, b: nat, n: nat)
    requires n <= |w.rows| && forall j :: 0 <= j < n && ActiveRow(w, j) && w.rows[j].key == k ==> w.rows[j].batch == b
    ensures References(w, k, b, n) == 0
  {
    if n > 0 {
      Unreferenced(w, k, b, n - 1);
    }
  }

  /** Batch `b` has one table with one row, under a live lease that no other batch's active row refers to. */
  predicate LoneRow(w: World, b: nat, t: nat, i: nat) {
    b < |w.batches| && t < |w.tables| && w.tables[t] == Table(b, Succeeded) && i < |w.rows|
    && Revocable(w, i, t) && w.rows[i].batch == b && LiveLease(w, w.rows[i].key)
    && (forall u :: 0 <= u < |w.tables| && u != t ==> w.tables[u].batch != b)
    && (forall j :: 0 <= j < |w.rows| && j != i ==> w.rows[j].table != t)
    && (forall j :: 0 <= j < |w.rows| && ActiveRow(w, j) && w.rows[j].key == w.rows[i].key ==> w.rows[j].batch == b)
  }

  function WithoutRow(w: World, b: nat, t: nat, i: nat): World
    requires LoneRow(w, b, t, i)
  {
    var k := w.rows[i].key;
    World(w.doris - {k}, w.granted - {k}, w.leases[k := Lease(System, true, Revoked)],
          w.batches[b := Batch(Offlined, w.batches[b].expires, true)], w.tables[t := Table(b, Offlined)],
          w.rows[i := w.rows[i].(revoke := RevokeDone)], w.now)
  }

  lemma OfflineOne(w: World, b: nat, t: nat, i: nat)
    requires LoneRow(w, b, t, i)
    ensures AfterOffline(w, b, {}) == WithoutRow(w, b, t, i)
  {
    var p := Pass(w, false);
    Unreferenced(w, w.rows[i].key, b, |w.rows|);
    assert Plan(w, i) == Revoke;
    RowsWithOne(p, t, i, |w.rows|);
    TablesWithOne(p, b, t, |w.tables|);
  }

  // ---- extension after expiry ------------------------------------------------------------------------------

  /** Both batches share `k`; the first expires, the second goes offline and revokes, the first is extended. */
  lemma ExtensionRevivesARevokedReference(k: Privilege)
    ensures var w := Run(Fresh({}, 0),
                         [Import(10, [[Attempt(k, NoFault)]]), Import(100, [[Attempt(k, NoFault)]]), Tick(10),
                                        Offline(1, {}), Extend(0, 200)]);
            ActiveRow(w, 0) && w.rows[0].key == k && k !in w.doris
  {
    var a := Attempt(k, NoFault);
    var w0 := Fresh({}, 0);
    ImportOne(w0, 10, a);
    var w1 := AfterImport(w0, 10, [[a]]);
    ImportOne(w1, 100, a);
    var w3 := AfterImport(w1, 100, [[a]]).(now := 10);
    assert w3 == World({k}, {k}, map[k := Lease(System, true, Active)],
                       [Batch(Succeeded, 10, false), Batch(Succeeded, 100, false)],
                       [Table(0, Succeeded), Table(1, Succeeded)],
                       [Row(0, 0, k, Granted, RevokePending), Row(1, 1, k, Shared, RevokePending)], 10);
    RevokedThenExtended(w3, k);
    RunOfFive(w0, Import(10, [[a]]), Import(100, [[a]]), Tick(10), Offline(1, {}), Extend(0, 200));
  }

  lemma RevokedThenExtended(w: World, k: Privilege)
    requires w == World({k}, {k}, map[k := Lease(System, true, Active)],
                        [Batch(Succeeded, 10, false), Batch(Succeeded, 100, false)],
                        [Table(0, Succeeded), Table(1, Succeeded)],
                        [Row(0, 0, k, Granted, RevokePending), Row(1, 1, k, Shared, RevokePending)], 10)
    ensures var after := AfterExtend(AfterOffline(w, 1, {}), 0, 200);
            ActiveRow(after, 0) && after.rows[0].key == k && k !in after.doris
  {
    OfflineOne(w, 1, 1, 1);
  }

  lemma RunSnoc(w: World, events: seq<Event>, e: Event)
    ensures Run(w, events + [e]) == Step(Run(w, events), e)
  {
    assert (events + [e])[..|events|] == events;
  }

  lemma RunOfTwo(w: World, e1: Event, e2: Event)
    ensures Run(w, [e1, e2]) == Step(Step(w, e1), e2)
  {
    RunSnoc(w, [], e1);
    RunSnoc(w, [e1], e2);
    assert [] + [e1] == [e1] && [e1] + [e2] == [e1, e2];
  }

  lemma RunOfThree(w: World, e1: Event, e2: Event, e3: Event)
    ensures Run(w, [e1, e2, e3]) == Step(Step(Step(w, e1), e2), e3)
  {
    RunOfTwo(w, e1, e2);
    RunSnoc(w, [e1, e2], e3);
    assert [e1, e2] + [e3] == [e1, e2, e3];
  }

  lemma RunOfFive(w: World, e1: Event, e2: Event, e3: Event, e4: Event, e5: Event)
    ensures Run(w, [e1, e2, e3, e4, e5]) == Step(Step(Step(Step(Step(w, e1), e2), e3), e4), e5)
  {
    RunOfThree(w, e1, e2, e3);
    RunSnoc(w, [e1, e2, e3], e4);
    RunSnoc(w, [e1, e2, e3] + [e4], e5);
    assert [e1, e2, e3] + [e4] + [e5] == [e1, e2, e3, e4, e5];
  }

  // ---- a batch with only partial tables ---------------------------------------------------------------------

  /**
   The first batch got `k` for one user and failed for another, so it is failed and does not count; the
   second revokes `k`.
   */
  lemma {:induction false} PartialBatchLosesItsPrivilege(k: Privilege, other: Privilege)
    requires k != other
    ensures var w := Run(Fresh({}, 0), [Import(100, [[Attempt(k, NoFault), Attempt(other, GrantFault)]]),
                                        Import(100, [[Attempt(k, NoFault)]]), Offline(1, {})]);
            |w.batches| == 2 && Standing(w, 0) && w.rows[0].key == k && w.rows[0].batch == 0
            && w.batches[0].expires > w.now && !w.batches[0].offlined && k !in w.doris
  {
    var a, f := Attempt(k, NoFault), Attempt(other, GrantFault);
    PartialImport(k, other);
    SecondBatchRevokes(AfterImport(Fresh({}, 0), 100, [[a, f]]), k, other);
    RunOfThree(Fresh({}, 0), Import(100, [[a, f]]), Import(100, [[a]]), Offline(1, {}));
  }

  predicate PartiallyImported(w: World, k: Privilege, other: Privilege) {
    w == World({k}, {k}, map[k := Lease(System, true, Active), other := Lease(Unknown, false, Error)],
               [Batch(Failed, 100, false)], [Table(0, Partial)],
               [Row(0, 0, k, Granted, RevokePending), Row(0, 0, other, GrantFailed, RevokeSkipped)], 0)
  }

  lemma SecondBatchRevokes(w: World, k: Privilege, other: Privilege)
    requires k != other && PartiallyImported(w, k, other)
    ensures var after := AfterOffline(AfterImport(w, 100, [[Attempt(k, NoFault)]]), 1, {});
            |after.batches| == 2 && Standing(after, 0) && after.rows[0].key == k && after.rows[0].batch == 0
            && after.batches[0].expires > after.now && !after.batches[0].offlined && k !in after.doris
  {
    ImportOne(w, 100, Attempt(k, NoFault));
    LastBatchRevokes(AfterImport(w, 100, [[Attempt(k, NoFault)]]), k, other);
  }

  lemma LastBatchRevokes(w: World, k: Privilege, other: Privilege)
    requires k != other
    requires w == World({k}, {k}, map[k := Lease(System, true, Active), other := Lease(Unknown, false, Error)],
                        [Batch(Failed, 100, false), Batch(Succeeded, 100, false)],
                        [Table(0, Partial), Table(1, Succeeded)],
                        [Row(0, 0, k, Granted, RevokePending), Row(0, 0, other, GrantFailed, RevokeSkipped),
                         Row(1, 1, k, Shared, RevokePending)], 0)
    ensures var after := AfterOffline(w, 1, {});
            |after.batches| == 2 && Standing(after, 0) && after.rows[0].key == k && after.rows[0].batch == 0
            && after.batches[0].expires > after.now && !after.batches[0].offlined && k !in after.doris
  {
    OfflineOne(w, 1, 1, 2);
  }

  lemma PartialImport(k: Privilege, other: Privilege)
    requires k != other
    ensures PartiallyImported(AfterImport(Fresh({}, 0), 100, [[Attempt(k, NoFault), Attempt(other, GrantFault)]]), k,
                              other)
  {
    var a, f := Attempt(k, NoFault), Attempt(other, GrantFault);
    var w0 := Fresh({}, 0);
    ImportTable(w0, 100, [a, f]);
    var first, second := Row(0, 0, k, Granted, RevokePending), Row(0, 0, other, GrantFailed, RevokeSkipped);
    PartialRows(k, other);
    CountFirst(first, second);
  }

  lemma PartialRows(k: Privilege, other: Privilege)
    requires k != other
    ensures Filled(Fresh({}, 0), 100, [Attempt(k, NoFault), Attempt(other, GrantFault)])
            == World({k}, {k}, map[k := Lease(System, true, Active), other := Lease(Unknown, false, Error)],
                     [Batch(Running, 100, false)], [Table(0, Running)],
                     [Row(0, 0, k, Granted, RevokePending), Row(0, 0, other, GrantFailed, RevokeSkipped)], 0)
  {
    var a, f := Attempt(k, NoFault), Attempt(other, GrantFault);
    var w0 := Fresh({}, 0);
    var begun := w0.(batches := w0.batches + [Batch(Running, 100, false)], tables := w0.tables + [Table(0, Running)]);
    assert AfterGrantRows(begun, 0, 0, [a, f], 0) == begun;
    assert AfterGrantRows(begun, 0, 0, [a, f], 1) == AfterGrantRow(begun, 0, 0, a);
  }

  lemma CountFirst(first: Row, second: Row)
    requires first.grant != GrantFailed && second.grant == GrantFailed
    ensures CountGranted([first, second], 0) == 1
  {
    assert [first, second][..1] == [first] && [first][..0] == [];
    assert CountGranted([first], 0) == 1;
  }

  // ---- a batch that names a privilege twice --------------------------------------------------------------------

  predicate TwiceNamed(w: World, k: Privilege) {
    w == World({k}, {k}, map[k := Lease(System, true, Active)], [Batch(Succeeded, 100, false)], [Table(0, Succeeded)],
               [Row(0, 0, k, Granted, RevokePending), Row(0, 0, k, Shared, RevokePending)], 0)
  }

  /** The REVOKE of the first row fails and leaves it active; that of the second takes the privilege away. */
  lemma TwiceNamedPrivilegeIsLost(k: Privilege)
    ensures var w := Run(Fresh({}, 0), [Import(100, [[Attempt(k, NoFault), Attempt(k, NoFault)]]), Offline(0, {0})]);
            ActiveRow(w, 0) && w.rows[0].key == k && k !in w.doris
  {
    var a := Attempt(k, NoFault);
    TwiceImport(k);
    OfflineAfterImport(Fresh({}, 0), 100, [[a, a]], {0}, k);
  }

  lemma {:induction false} OfflineAfterImport(w: World, expires: int, imports: seq<seq<Attempt>>, faults: set<nat>,
                                              k: Privilege)
    requires faults == {0} && TwiceNamed(AfterImport(w, expires, imports), k)
    ensures var after := Run(w, [Import(expires, imports), Offline(0, faults)]);
            ActiveRow(after, 0) && after.rows[0].key == k && k !in after.doris
  {
    TwiceIsTorn(AfterImport(w, expires, imports), k);
    RunOfTwo(w, Import(expires, imports), Offline(0, faults));
  }

  lemma TwiceIsTorn(w: World, k: Privilege)
    requires TwiceNamed(w, k)
    ensures var after := AfterOffline(w, 0, {0}); ActiveRow(after, 0) && after.rows[0].key == k && k !in after.doris
  {
    Unreferenced(w, k, 0, 2);
    assert TornPair(w, 0, 0, 1);
    assert AllBut(w, 1) == {0};
    TornIsLost(w, 0, 0, 1);
  }

  lemma TwiceImport(k: Privilege)
    ensures TwiceNamed(AfterImport(Fresh({}, 0), 100, [[Attempt(k, NoFault), Attempt(k, NoFault)]]), k)
  {
    var a := Attempt(k, NoFault);
    ImportTable(Fresh({}, 0), 100, [a, a]);
    TwiceRows(k);
    CountBoth(Row(0, 0, k, Granted, RevokePending), Row(0, 0, k, Shared, RevokePending));
  }

  lemma TwiceRows(k: Privilege)
    ensures Filled(Fresh({}, 0), 100, [Attempt(k, NoFault), Attempt(k, NoFault)])
            == World({k}, {k}, map[k := Lease(System, true, Active)], [Batch(Running, 100, false)], [Table(0, Running)],
                     [Row(0, 0, k, Granted, RevokePending), Row(0, 0, k, Shared, RevokePending)], 0)
  {
    var a := Attempt(k, NoFault);
    var w0 := Fresh({}, 0);
    var begun := w0.(batches := w0.batches + [Batch(Running, 100, false)], tables := w0.tables + [Table(0, Running)]);
    assert AfterGrantRows(begun, 0, 0, [a, a], 0) == begun;
    assert AfterGrantRows(begun, 0, 0, [a, a], 1) == AfterGrantRow(begun, 0, 0, a);
  }

  lemma CountBoth(first: Row, second: Row)
    requires first.grant != GrantFailed && second.grant != GrantFailed
    ensures CountGranted([first, second], 0) == 2
  {
    assert [first, second][..1] == [first] && [first][..0] == [];
    assert CountGranted([first], 0) == 1;
  }

  // ---- a failed check on a revoked lease ---------------------------------------------------------------------

  /** A failed check makes a spent lease live again, and the next import keeps somebody else's privilege under it. */
  lemma ForgedLeaseIsLive(w: World, k: Privilege)
    requires Accounted(w) && Spent(w, k) && k in w.doris
    ensures var failed := AfterAcquire(w, k, CheckFault);
            LiveLease(failed, k) && k in failed.doris && k !in failed.granted
    ensures var shared := AfterAcquire(AfterAcquire(w, k, CheckFault), k, NoFault);
            LiveLease(shared, k) && k in shared.doris && k !in shared.granted
  {
    assert !LiveLease(w, k);
  }

  /** Revoked, granted again by somebody else, claimed after a failed check, and revoked once more. */
  lemma ForgedLeaseRevokesSomebodyElses(k: Privilege)
    ensures var revoked := AfterOffline(AfterImport(Fresh({}, 0), 100, [[Attempt(k, NoFault)]]), 0, {});
            var granted := revoked.(doris := revoked.doris + {k});
            var w := AfterImport(AfterImport(granted, 100, [[Attempt(k, CheckFault)]]), 100, [[Attempt(k, NoFault)]]);
            k in w.doris && k !in w.granted && k !in AfterOffline(w, 2, {}).doris
  {
    GrantedAndRevoked(k);
    var revoked := AfterOffline(AfterImport(Fresh({}, 0), 100, [[Attempt(k, NoFault)]]), 0, {});
    ForgedClaim(revoked.(doris := revoked.doris + {k}), k);
  }

  lemma GrantedAndRevoked(k: Privilege)
    ensures AfterOffline(AfterImport(Fresh({}, 0), 100, [[Attempt(k, NoFault)]]), 0, {})
            == World({}, {}, map[k := Lease(System, true, Revoked)], [Batch(Offlined, 100, true)], [Table(0, Offlined)],
                     [Row(0, 0, k, Granted, RevokeDone)], 0)
  {
    ImportOne(Fresh({}, 0), 100, Attempt(k, NoFault));
    OfflineOne(AfterImport(Fresh({}, 0), 100, [[Attempt(k, NoFault)]]), 0, 0, 0);
  }

  /** Somebody else's privilege under a spent lease. */
  predicate Regranted(w: World, k: Privilege) {
    w.doris == {k} && w.granted == {} && k in w.leases && w.leases[k] == Lease(System, true, Revoked) && w.now == 0
    && w.batches == [Batch(Offlined, 100, true)] && w.tables == [Table(0, Offlined)]
    && w.rows == [Row(0, 0, k, Granted, RevokeDone)]
  }

  lemma ForgedClaim(w: World, k: Privilege)
    requires Regranted(w, k)
    ensures var after := AfterImport(AfterImport(w, 100, [[Attempt(k, CheckFault)]]), 100, [[Attempt(k, NoFault)]]);
            k in after.doris && k !in after.granted && k !in AfterOffline(after, 2, {}).doris
  {
    var a, c := Attempt(k, NoFault), Attempt(k, CheckFault);
    ImportOne(w, 100, c);
    ClaimedAndRevoked(AfterImport(w, 100, [[c]]), k);
  }

  lemma ClaimedAndRevoked(w: World, k: Privilege)
    requires w.doris == {k} && w.granted == {} && k in w.leases && w.leases[k] == Lease(System, true, Error)
             && w.now == 0
    requires w.batches == [Batch(Offlined, 100, true), Batch(Failed, 100, false)]
             && w.tables == [Table(0, Offlined), Table(1, Failed)]
    requires w.rows == [Row(0, 0, k, Granted, RevokeDone), Row(1, 1, k, GrantFailed, RevokeSkipped)]
    ensures var after := AfterImport(w, 100, [[Attempt(k, NoFault)]]);
            k in after.doris && k !in after.granted && k !in AfterOffline(after, 2, {}).doris
  {
    ImportOne(w, 100, Attempt(k, NoFault));
    OfflineOne(AfterImport(w, 100, [[Attempt(k, NoFault)]]), 2, 2, 2);
  }
}
