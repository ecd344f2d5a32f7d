/**
 The lease, batch, table and row records, updated in place, one transaction a method.

 Each method makes of the records what `PrivilegeLease` says, and so keeps every
 privilege this system granted accounted for; those that import, offline, extend
 and sweep also keep every active reference present, under the care they name.
 */
module PrivilegeLedger {
  import opened PrivilegeLease
  import opened PrivilegeLeaks
  import opened PrivilegeOffline
  import opened PrivilegeReferences

  /** Every grant stays accounted for, and after a careful event every active reference stays present. */
  ghost predicate Keeps(w: World, e: Event, after: World) {
    (Accounted(w) ==> Accounted(after)) && (Sound(w) && Careful(w, e) ==> Sound(after))
  }

  lemma {:induction false} ImportKeepsBoth(w: World, expires: int, imports: seq<seq<Attempt>>)
    ensures Keeps(w, Import(expires, imports), AfterImport(w, expires, imports))
  {
    if Accounted(w) { ImportKeeps(w, expires, imports); }
    if Sound(w) && Careful(w, Import(expires, imports)) { ImportKeepsSound(w, expires, imports); }
  }

  lemma CountNext(before: seq<Table>, after: seq<Table>, firstTable: nat)
    requires firstTable <= |before| && |after| == |before| + 1 && after[..|before|] == before
    ensures CountSucceeded(after, firstTable)
            == CountSucceeded(before, firstTable) + if after[|before|].phase == Succeeded then 1 else 0
  {
  }

  /** An event of a sweep touches its own batch only. */
  lemma SweepStepKeepsDue(w: World, picked: seq<nat>, faults: set<nat>, gone: set<nat>, n: nat)
    requires n < |picked| && forall j :: n <= j < |picked| ==> Due(w, picked[j])
    requires forall i, j :: 0 <= i < j < |picked| ==> picked[i] != picked[j]
    ensures forall j :: n < j < |picked| ==> Due(Step(w, SweepEvents(picked, faults, gone)[n]), picked[j])
  {
  }

  /** The events of a sweep need no care: each batch stays as it was picked, expired, until its turn. */
  lemma {:induction false} SweepKeeps(start: World, picked: seq<nat>, faults: set<nat>, gone: set<nat>, n: nat)
    requires n <= |picked| && forall i :: 0 <= i < |picked| ==> Due(start, picked[i])
    requires forall i, j :: 0 <= i < j < |picked| ==> picked[i] != picked[j]
    ensures var w := Run(start, SweepEvents(picked, faults, gone)[..n]);
            && (forall j :: n <= j < |picked| ==> Due(w, picked[j]))
            && (Accounted(start) ==> Accounted(w)) && (Sound(start) ==> Sound(w))
  {
    var events := SweepEvents(picked, faults, gone);
    if n > 0 {
      SweepKeeps(start, picked, faults, gone, n - 1);
      var w := Run(start, events[..n - 1]);
      assert Due(w, picked[n - 1]);
      assert events[..n][..n - 1] == events[..n - 1];
      SweepStepKeepsDue(w, picked, faults, gone, n - 1);
      if Accounted(w) { StepKeeps(w, events[n - 1]); }
      if Sound(w) { StepKeepsSound(w, events[n - 1]); }
    }
  }

  class Ledger {
    var doris: set<Privilege>
    var granted: set<Privilege>
    var leases: map<Privilege, Lease>
    var batches: seq<Batch>
    var tables: seq<Table>
    var rows: seq<Row>
    var now: int

    function View(): World
      reads this
    {
      World(doris, granted, leases, batches, tables, rows, now)
    }

    constructor (existing: set<Privilege>, start: int)
      ensures View() == Fresh(existing, start) && Accounted(View()) && Sound(View())
    {
      doris, granted, leases, batches, tables, rows, now := existing, {}, map[], [], [], [], start;
    }

    method Acquire(k: Privilege, fault: Fault) returns (mark: GrantMark)
      modifies this
      ensures mark == AcquireMark(old(View()), k, fault) && View() == AfterAcquire(old(View()), k, fault)
      ensures leases == old(leases)[k := leases[k]] && rows == old(rows) && tables == old(tables)
              && batches == old(batches)
      ensures fault == CheckFault || (fault == GrantFault && k !in old(doris)) ==>
                mark == GrantFailed && doris == old(doris) && granted == old(granted) && leases[k].state == Error
      ensures fault != CheckFault && k in old(doris) ==>
                mark == Shared && doris == old(doris) && granted == old(granted)
                && leases[k] == if k !in old(leases) || old(leases)[k].state == Revoked
                then Lease(External, false, Active)
                                else if old(leases)[k].ownership == System && old(leases)[k].owned
                                  then Lease(System, true, Active)
                                else if old(leases)[k].ownership == Unknown then old(leases)[k].(state := Active)
                                else Lease(External, false, Active)
      ensures fault == NoFault && k !in old(doris) ==>
                mark == Granted && doris == old(doris) + {k} && granted == old(granted) + {k}
                && leases[k] == Lease(System, true, Active)
    {
      var created := k !in leases;
      var lease := if created then Lease(Unknown, false, Initializing) else leases[k];
      if fault == CheckFault {
        lease := lease.(state := Error);
        mark := GrantFailed;
      } else if k in doris {
        var keepsSystem := !created && lease.state != Revoked && lease.ownership == System && lease.owned;
        var keepsUnknown := !created && lease.state != Revoked && lease.ownership == Unknown;
        if !keepsSystem && !keepsUnknown {
          lease := lease.(owned := false, ownership := External);
        }
        lease := lease.(state := Active);
        mark := Shared;
      } else if fault == GrantFault {
        lease := lease.(state := Error);
        mark := GrantFailed;
      } else {
        doris, granted := doris + {k}, granted + {k};
        lease := Lease(System, true, Active);
        mark := Granted;
      }
      leases := leases[k := lease];
    }

    method GrantRow(b: nat, t: nat, a: Attempt) returns (mark: GrantMark)
      modifies this
      ensures mark == AcquireMark(old(View()), a.key, a.fault) && View() == AfterGrantRow(old(View()), b, t, a)
      ensures Accounted(old(View())) && t < |tables| && tables[t] == Table(b, Running) ==> Accounted(View())
    {
      ghost var was := View();
      if Accounted(was) && t < |tables| && tables[t] == Table(b, Running) { GrantRowKeeps(was, b, t, a); }
      mark := Acquire(a.key, a.fault);
      rows := rows + [Row(b, t, a.key, mark, if mark == GrantFailed then RevokeSkipped else RevokePending)];
    }

    method ImportTable(b: nat, attempts: seq<Attempt>) returns (phase: Phase)
      modifies this
      ensures View() == AfterImportTable(old(View()), b, attempts)
      ensures |tables| == |old(tables)| + 1 && tables[..|old(tables)|] == old(tables)
              && tables[|old(tables)|].phase == phase
      ensures batches == old(batches) && (Accounted(old(View())) && b < |batches| ==> Accounted(View()))
    {
      var t, firstRow := |tables|, |rows|;
      ghost var was := View();
      tables := tables + [Table(b, Running)];
      ghost var start := View();
      var success, failed := 0, 0;
      for n := 0 to |attempts|
        invariant View() == AfterGrantRows(start, b, t, attempts, n)
        invariant tables == start.tables && batches == start.batches
        invariant |rows| == firstRow + n && success + failed == n && success == CountGranted(rows, firstRow)
      {
        ghost var before := rows;
        var mark := GrantRow(b, t, attempts[n]);
        assert rows[..|rows| - 1] == before;
        if mark != GrantFailed { success := success + 1; } else { failed := failed + 1; }
      }
      phase := if failed > 0 then (if success == 0 then Failed else Partial) else Succeeded;
      tables := tables[t := tables[t].(phase := phase)];
      assert tables[..t] == was.tables;
      if Accounted(was) && b < |batches| { ImportTableKeeps(was, b, attempts); }
    }

    method ImportBatch(expires: int, imports: seq<seq<Attempt>>) returns (accepted: bool)
      modifies this
      ensures accepted <==> old(now) < expires
      ensures View() == AfterImport(old(View()), expires, imports)
      ensures Keeps(old(View()), Import(expires, imports), View())
    {
      ImportKeepsBoth(View(), expires, imports);
      if expires <= now { return false; }
      var b, firstTable := |batches|, |tables|;
      batches := batches + [Batch(Running, expires, false)];
      ghost var start := View();
      var success, failed := 0, 0;
      for n := 0 to |imports|
        invariant View() == AfterImportTables(start, b, imports, n)
        invariant batches == start.batches
        invariant |tables| == firstTable + n && success + failed == n && success == CountSucceeded(tables, firstTable)
      {
        ghost var before := tables;
        var phase := ImportTable(b, imports[n]);
        CountNext(before, tables, firstTable);
        if phase == Succeeded { success := success + 1; } else { failed := failed + 1; }
      }
      var phase := if failed == 0 then Succeeded else if success == 0 then Failed else Partial;
      batches := batches[b := batches[b].(phase := phase)];
      accepted := true;
    }

    method RevokeRow(t: nat, i: nat, fails: bool) returns (hurt: bool)
      requires i < |rows|
      modifies this
      ensures View() == AfterRevokeRow(old(View()), t, i, fails)
      ensures hurt <==> Revocable(old(View()), i, t) && Plan(old(View()), i) == Revoke && fails
      ensures var row := old(rows)[i];
              var own := row.key in old(leases) && old(leases)[row.key].state != Revoked
                          && old(leases)[row.key].ownership == System && old(leases)[row.key].owned
                          && References(old(View()), row.key, row.batch, |old(rows)|) == 0;
              if row.table != t || row.grant == GrantFailed || row.revoke == RevokeDone then View() == old(View())
              else if !own then
                rows == old(rows)[i := row.(revoke := RevokeSkipped)] && doris == old(doris) && granted == old(granted)
                && leases == old(leases)[row.key := if row.key in old(leases) then old(leases)[row.key]
                                                    else Lease(Unknown, false, Active)]
              else if fails then
                rows == old(rows)[i := row.(revoke := RevokeFailed)] && doris == old(doris) && granted == old(granted)
                && leases == old(leases)[row.key := Lease(System, true, Error)]
              else
                rows == old(rows)[i := row.(revoke := RevokeDone)] && doris == old(doris) - {row.key}
                && granted == old(granted) - {row.key} && leases == old(leases)[row.key := Lease(System, true, Revoked)]
      ensures tables == old(tables) && batches == old(batches) && now == old(now)
      ensures Accounted(old(View())) ==> Accounted(View())
    {
      ghost var was := View();
      var row := rows[i];
      if row.table != t || row.grant == GrantFailed || row.revoke == RevokeDone { return false; }
      var k := row.key;
      var lease := if k in leases then leases[k] else Lease(Unknown, false, Active);
      var references := References(View(), k, row.batch, |rows|);
      hurt := false;
      if RevokePlan(lease, references) != Revoke {
        row := row.(revoke := RevokeSkipped);
      } else if fails {
        row, lease, hurt := row.(revoke := RevokeFailed), lease.(state := Error), true;
      } else {
        row, lease := row.(revoke := RevokeDone), lease.(state := Revoked);
        doris, granted := doris - {k}, granted - {k};
      }
      rows, leases := rows[i := row], leases[k := lease];
      if Accounted(was) { RevokeRowKeeps(was, t, i, fails); }
    }

    method OfflineTable(t: nat, faults: set<nat>) returns (hurt: bool)
      requires t < |tables| && (tables[t].phase == Succeeded || tables[t].phase == Partial)
      modifies this
      ensures Pass(View(), hurt) == PassTable(Pass(old(View()), false), old(tables[t].batch), t, faults)
      ensures Accounted(old(View())) ==> Accounted(View())
    {
      ghost var start := View();
      hurt := false;
      for i := 0 to |rows|
        invariant i <= |rows| == |start.rows| && tables == start.tables
        invariant Pass(View(), hurt) == PassRows(Pass(start, false), t, faults, i)
      {
        var failed := RevokeRow(t, i, i in faults);
        hurt := hurt || failed;
      }
      if !hurt {
        tables := tables[t := tables[t].(phase := Offlined)];
      }
      if Accounted(start) { PassTableKeeps(Pass(start, false), start.tables[t].batch, t, faults); }
    }

    method OfflineBatch(b: nat, faults: set<nat>) returns (found: bool)
      modifies this
      ensures found <==> b < |old(batches)|
      ensures View() == AfterOffline(old(View()), b, faults)
      ensures Keeps(old(View()), Offline(b, faults), View())
    {
      if b >= |batches| { return false; }
      ghost var start := View();
      var failed := 0;
      for t := 0 to |tables|
        invariant |tables| == |start.tables| && batches == start.batches
        invariant Pass(View(), failed > 0) == PassTables(Pass(start, false), b, faults, t) && failed >= 0
      {
        if tables[t].batch == b && (tables[t].phase == Succeeded || tables[t].phase == Partial) {
          var hurt := OfflineTable(t, faults);
          if hurt { failed := failed + 1; }
        }
      }
      batches := batches[b := batches[b].(phase := if failed == 0 then Offlined else Partial, offlined := failed == 0)];
      found := true;
      if Accounted(start) { OfflineKeeps(start, b, faults); }
      if Sound(start) && !Torn(start, b) { OfflineKeepsSound(start, b, faults); }
    }

    method ExtendBatch(b: nat, until: int) returns (accepted: bool)
      modifies this
      ensures accepted <==> b < |old(batches)| && old(now) < until
      ensures View() == AfterExtend(old(View()), b, until)
      ensures Keeps(old(View()), Extend(b, until), View())
      ensures accepted ==> batches == old(batches)[b := batches[b]] && batches[b].expires == until
      ensures accepted && (old(batches)[b].phase == Expired || old(batches)[b].phase == Offlined) ==>
                batches[b].phase == Succeeded && !batches[b].offlined
      ensures accepted && old(batches)[b].phase != Expired && old(batches)[b].phase != Offlined ==>
                batches[b].phase == old(batches)[b].phase && batches[b].offlined == old(batches)[b].offlined
      ensures doris == old(doris) && granted == old(granted) && leases == old(leases) && rows == old(rows)
      ensures tables == old(tables) && now == old(now) && (!accepted ==> batches == old(batches))
    {
      ghost var was := View();
      if b >= |batches| || until <= now { return false; }
      batches := batches[b := batches[b].(expires := until)];
      if batches[b].phase == Expired || batches[b].phase == Offlined {
        batches := batches[b := batches[b].(phase := Succeeded, offlined := false)];
      }
      accepted := true;
      if Accounted(was) { BatchesDoNotMatter(was, View()); }
      if Sound(was) && Careful(was, Extend(b, until)) { ExtendKeepsSound(was, b, until); }
    }

    /** The query returns each due batch at most once, at most twenty of them; an expired batch is never torn. */
    method SweepExpired(picked: seq<nat>, faults: set<nat>, gone: set<nat>)
      requires |picked| <= 20 && forall i :: 0 <= i < |picked| ==> Due(View(), picked[i])
      requires forall i, j :: 0 <= i < j < |picked| ==> picked[i] != picked[j]
      modifies this
      ensures View() == Run(old(View()), SweepEvents(picked, faults, gone))
      ensures (Accounted(old(View())) ==> Accounted(View())) && (Sound(old(View())) ==> Sound(View()))
    {
      ghost var start, events := View(), SweepEvents(picked, faults, gone);
      for n := 0 to |picked|
        invariant View() == Run(start, events[..n])
      {
        SweepKeeps(start, picked, faults, gone, n);
        var b := picked[n];
        assert Due(View(), b);
        assert events[..n + 1][..n] == events[..n];
        if b in gone {
          batches := batches[b := batches[b].(phase := Failed)];
        } else {
          var found := OfflineBatch(b, faults);
        }
      }
      SweepKeeps(start, picked, faults, gone, |picked|);
      assert events[..|picked|] == events;
    }
  }
}
