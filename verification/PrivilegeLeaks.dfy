/**
 No privilege leaks: whatever this system granted and has not yet revoked is still
 accounted for by a lease it owns and by a row that some later offline will visit.
 Nothing is assumed about failures, extensions, shared keys or other people's statements.
 */
module PrivilegeLeaks {
  import opened PrivilegeLease

  /** Rows name their table and its batch. */
  predicate Linked(w: World) {
    (forall i :: 0 <= i < |w.rows| ==>
       w.rows[i].table < |w.tables| && w.rows[i].batch == w.tables[w.rows[i].table].batch)
    && (forall t :: 0 <= t < |w.tables| ==> w.tables[t].batch < |w.batches|)
  }

  /** The lease would let its last reference revoke. */
  predicate LiveLease(w: World, k: Privilege) {
    k in w.leases && w.leases[k].ownership == System && w.leases[k].owned && w.leases[k].state != Revoked
  }

  predicate StandsFor(w: World, i: int, k: Privilege) {
    Standing(w, i) && w.rows[i].key == k
  }

  ghost predicate Held(w: World, k: Privilege) {
    exists i :: StandsFor(w, i, k)
  }

  ghost predicate Accounted(w: World) {
    Linked(w) && forall k :: k in w.granted ==> k in w.doris && LiveLease(w, k) && Held(w, k)
  }

  // ---- importing -------------------------------------------------------------------------------

  lemma GrantRowKeeps(w: World, b: nat, t: nat, a: Attempt)
    requires Accounted(w) && t < |w.tables| && w.tables[t] == Table(b, Running)
    ensures Accounted(AfterGrantRow(w, b, t, a))
  {
    var after := AfterGrantRow(w, b, t, a);
    assert Linked(after);
    forall k | k in after.granted
      ensures k in after.doris && LiveLease(after, k) && Held(after, k)
    {
      if k in w.granted {
        var i :| StandsFor(w, i, k);
        assert StandsFor(after, i, k);
      } else {
        assert StandsFor(after, |w.rows|, k);
      }
    }
  }

  lemma {:induction false} GrantRowsKeep(w: World, b: nat, t: nat, attempts: seq<Attempt>, n: nat)
    requires Accounted(w) && t < |w.tables| && w.tables[t] == Table(b, Running) && n <= |attempts|
    ensures var after := AfterGrantRows(w, b, t, attempts, n);
            Accounted(after) && forall i :: 0 <= i < |w.rows| ==> after.rows[i] == w.rows[i]
  {
    if n > 0 {
      GrantRowsKeep(w, b, t, attempts, n - 1);
      GrantRowKeeps(AfterGrantRows(w, b, t, attempts, n - 1), b, t, attempts[n - 1]);
    }
  }

  lemma {:induction false} GrantedIsCounted(rows: seq<Row>, first: nat, i: nat)
    requires first <= i < |rows| && rows[i].grant != GrantFailed
    ensures CountGranted(rows, first) > 0
    decreases |rows|
  {
    if i < |rows| - 1 {
      GrantedIsCounted(rows[..|rows| - 1], first, i);
    }
  }

  lemma CloseTableKeeps(w: World, t: nat, firstRow: nat)
    requires Accounted(w) && t < |w.tables| && firstRow <= |w.rows|
    requires forall i :: 0 <= i < firstRow ==> w.rows[i].table != t
    ensures Accounted(AfterCloseTable(w, t, firstRow))
  {
    var after := AfterCloseTable(w, t, firstRow);
    forall k | k in after.granted
      ensures k in after.doris && LiveLease(after, k) && Held(after, k)
    {
      var i :| StandsFor(w, i, k);
      if w.rows[i].table == t {
        GrantedIsCounted(w.rows, firstRow, i);
      }
      assert StandsFor(after, i, k);
    }
  }

  lemma ImportTableKeeps(w: World, b: nat, attempts: seq<Attempt>)
    requires Accounted(w) && b < |w.batches|
    ensures Accounted(AfterImportTable(w, b, attempts))
  {
    var t := |w.tables|;
    var begun := w.(tables := w.tables + [Table(b, Running)]);
    forall k | k in begun.granted
      ensures Held(begun, k)
    {
      var i :| StandsFor(w, i, k);
      assert StandsFor(begun, i, k);
    }
    GrantRowsKeep(begun, b, t, attempts, |attempts|);
    CloseTableKeeps(AfterGrantRows(begun, b, t, attempts, |attempts|), t, |w.rows|);
  }

  lemma {:induction false} ImportTablesKeep(w: World, b: nat, imports: seq<seq<Attempt>>, n: nat)
    requires Accounted(w) && b < |w.batches| && n <= |imports|
    ensures Accounted(AfterImportTables(w, b, imports, n))
  {
    if n > 0 {
      ImportTablesKeep(w, b, imports, n - 1);
      ImportTableKeeps(AfterImportTables(w, b, imports, n - 1), b, imports[n - 1]);
    }
  }

  /** What is accounted for does not depend on the state, expiry or number of the batches. */
  lemma BatchesDoNotMatter(w: World, after: World)
    requires Accounted(w) && after == w.(batches := after.batches, now := after.now) && |after.batches| >= |w.batches|
    ensures Accounted(after)
  {
    forall k | k in after.granted
      ensures Held(after, k)
    {
      var i :| StandsFor(w, i, k);
      assert StandsFor(after, i, k);
    }
  }

  lemma ImportKeeps(w: World, expires: int, imports: seq<seq<Attempt>>)
    requires Accounted(w)
    ensures Accounted(AfterImport(w, expires, imports))
  {
    if expires > w.now {
      var b := |w.batches|;
      var begun := w.(batches := w.batches + [Batch(Running, expires, false)]);
      BatchesDoNotMatter(w, begun);
      ImportTablesKeep(begun, b, imports, |imports|);
      var filled := AfterImportTables(begun, b, imports, |imports|);
      BatchesDoNotMatter(filled, AfterCloseBatch(filled, b, |w.tables|));
    }
  }

  // ---- taking offline -----------------------------------------------------------------------------

  predicate StandsElsewhere(w: World, i: int, k: Privilege, b: nat) {
    StandsFor(w, i, k) && w.rows[i].batch != b
  }

  ghost predicate HeldElsewhere(w: World, k: Privilege, b: nat) {
    exists i :: StandsElsewhere(w, i, k, b)
  }

  lemma {:induction false} ReferenceStandsElsewhere(w: World, k: Privilege, b: nat, n: nat)
    requires n <= |w.rows| && References(w, k, b, n) > 0
    ensures HeldElsewhere(w, k, b)
  {
    if ActiveRow(w, n - 1) && w.rows[n - 1].key == k && w.rows[n - 1].batch != b {
      assert StandsElsewhere(w, n - 1, k, b);
    } else {
      ReferenceStandsElsewhere(w, k, b, n - 1);
    }
  }

  /** A granted privilege that this row does not revoke, without a failure, is held by another batch. */
  lemma SkippedIsHeldElsewhere(w: World, i: nat)
    requires Accounted(w) && i < |w.rows| && w.rows[i].key in w.granted && Plan(w, i) != Revoke
    ensures HeldElsewhere(w, w.rows[i].key, w.rows[i].batch)
  {
    ReferenceStandsElsewhere(w, w.rows[i].key, w.rows[i].batch, |w.rows|);
  }

  lemma RevokeRowKeeps(w: World, t: nat, i: nat, fails: bool)
    requires Accounted(w) && i < |w.rows|
    ensures Accounted(AfterRevokeRow(w, t, i, fails))
    ensures forall k, b ::
              HeldElsewhere(w, k, b) && (k in AfterRevokeRow(w, t, i, fails).granted || b == w.rows[i].batch) ==>
              HeldElsewhere(AfterRevokeRow(w, t, i, fails), k, b)
  {
    var after := AfterRevokeRow(w, t, i, fails);
    forall k, b | HeldElsewhere(w, k, b) && (k in after.granted || b == w.rows[i].batch)
      ensures HeldElsewhere(after, k, b)
    {
      var j :| StandsElsewhere(w, j, k, b);
      assert StandsElsewhere(after, j, k, b);
    }
    forall k | k in after.granted
      ensures k in after.doris && LiveLease(after, k) && Held(after, k)
    {
      var j :| StandsFor(w, j, k);
      assert StandsFor(after, j, k);
    }
  }

  /** Every visited row of the table whose privilege is still granted is held by another batch too. */
  ghost predicate Visited(w: World, b: nat, t: nat, n: int) {
    forall j {:trigger Standing(w, j)} ::
      0 <= j < n && Standing(w, j) && w.rows[j].table == t && w.rows[j].key in w.granted ==>
      HeldElsewhere(w, w.rows[j].key, b)
  }

  ghost predicate PassGood(p: Pass, b: nat, t: nat, n: int) {
    Accounted(p.w) && (p.hurt || Visited(p.w, b, t, n))
  }

  lemma PassRowKeeps(p: Pass, b: nat, t: nat, i: nat, faults: set<nat>)
    requires i < |p.w.rows| && t < |p.w.tables| && p.w.tables[t].batch == b
    requires PassGood(p, b, t, i)
    ensures PassGood(PassRow(p, t, i, faults), b, t, i + 1)
  {
    var q := PassRow(p, t, i, faults);
    RevokeRowKeeps(p.w, t, i, i in faults);
    if !q.hurt {
      forall j | 0 <= j < i + 1 && Standing(q.w, j) && q.w.rows[j].table == t && q.w.rows[j].key in q.w.granted
        ensures HeldElsewhere(q.w, q.w.rows[j].key, b)
      {
        assert Standing(p.w, j);
        if j == i {
          SkippedIsHeldElsewhere(p.w, i);
        } else {
          assert q.w.rows[j] == p.w.rows[j];
        }
      }
    }
  }

  /** Induction over the rows that a pass visits, and over the tables. */
  lemma {:induction false} OverRows(inv: (Pass, nat) -> bool, p: Pass, t: nat, faults: set<nat>, n: nat)
    requires n <= |p.w.rows| && inv(p, 0)
    requires forall q: Pass, i: nat {:trigger PassRow(q, t, i, faults)} ::
               i < |q.w.rows| && inv(q, i) ==> inv(PassRow(q, t, i, faults), i + 1)
    ensures inv(PassRows(p, t, faults, n), n)
  {
    if n > 0 {
      OverRows(inv, p, t, faults, n - 1);
    }
  }

  lemma {:induction false} OverTables(inv: (Pass, nat) -> bool, p: Pass, b: nat, faults: set<nat>, n: nat)
    requires n <= |p.w.tables| && inv(p, 0)
    requires forall q: Pass, t: nat {:trigger PassTable(q, b, t, faults)} ::
               t < |q.w.tables| && inv(q, t) ==> inv(PassTable(q, b, t, faults), t + 1)
    ensures inv(PassTables(p, b, faults, n), n)
  {
    if n > 0 {
      OverTables(inv, p, b, faults, n - 1);
    }
  }

  lemma PassRowsKeep(p: Pass, b: nat, t: nat, faults: set<nat>, n: nat)
    requires PassGood(p, b, t, 0) && n <= |p.w.rows| && t < |p.w.tables| && p.w.tables[t].batch == b
    ensures PassGood(PassRows(p, t, faults, n), b, t, n)
  {
    var inv := (q: Pass, i: nat) => t < |q.w.tables| && q.w.tables[t].batch == b && PassGood(q, b, t, i);
    forall q: Pass, i: nat | i < |q.w.rows| && inv(q, i)
      ensures inv(PassRow(q, t, i, faults), i + 1)
    {
      PassRowKeeps(q, b, t, i, faults);
    }
    OverRows(inv, p, t, faults, n);
  }

  lemma PassTableKeeps(p: Pass, b: nat, t: nat, faults: set<nat>)
    requires Accounted(p.w) && t < |p.w.tables|
    ensures Accounted(PassTable(p, b, t, faults).w)
  {
    if p.w.tables[t].batch == b && (p.w.tables[t].phase == Succeeded || p.w.tables[t].phase == Partial) {
      var q := PassRows(Pass(p.w, false), t, faults, |p.w.rows|);
      assert Visited(p.w, b, t, 0);
      PassRowsKeep(Pass(p.w, false), b, t, faults, |p.w.rows|);
      if !q.hurt {
        var after := PassTable(p, b, t, faults).w;
        forall k | k in after.granted
          ensures Held(after, k)
        {
          var i :| StandsFor(q.w, i, k);
          if q.w.rows[i].table == t {
            var j :| StandsElsewhere(q.w, j, k, b);
            assert StandsFor(after, j, k);
          } else {
            assert StandsFor(after, i, k);
          }
        }
      }
    }
  }

  lemma PassTablesKeep(p: Pass, b: nat, faults: set<nat>, n: nat)
    requires Accounted(p.w) && n <= |p.w.tables|
    ensures Accounted(PassTables(p, b, faults, n).w)
  {
    var inv := (q: Pass, t: nat) => Accounted(q.w);
    forall q: Pass, t: nat | t < |q.w.tables| && inv(q, t)
      ensures inv(PassTable(q, b, t, faults), t + 1)
    {
      PassTableKeeps(q, b, t, faults);
    }
    OverTables(inv, p, b, faults, n);
  }

  lemma OfflineKeeps(w: World, b: nat, faults: set<nat>)
    requires Accounted(w)
    ensures Accounted(AfterOffline(w, b, faults))
  {
    if b < |w.batches| {
      PassTablesKeep(Pass(w, false), b, faults, |w.tables|);
      BatchesDoNotMatter(PassTables(Pass(w, false), b, faults, |w.tables|).w, AfterOffline(w, b, faults));
    }
  }

  // ---- whole runs -----------------------------------------------------------------------------------

  lemma OutsideKeeps(w: World, e: Event)
    requires Accounted(w) && (e.OutsideGrant? || e.OutsideRevoke?)
    ensures Accounted(Step(w, e))
  {
    var after := Step(w, e);
    forall k | k in after.granted
      ensures Held(after, k)
    {
      var i :| StandsFor(w, i, k);
      assert StandsFor(after, i, k);
    }
  }

  lemma StepKeeps(w: World, e: Event)
    requires Accounted(w)
    ensures Accounted(Step(w, e))
  {
    match e
    case Import(expires, imports) => ImportKeeps(w, expires, imports);
    case Offline(b, faults) => OfflineKeeps(w, b, faults);
    case Extend(b, until) => BatchesDoNotMatter(w, Step(w, e));
    case ConnectionLost(b) => BatchesDoNotMatter(w, Step(w, e));
    case Tick(d) => BatchesDoNotMatter(w, Step(w, e));
    case OutsideGrant(k) => OutsideKeeps(w, e);
    case OutsideRevoke(k) => OutsideKeeps(w, e);
  }

  /** In every run, each privilege granted and not revoked has a system-owned lease and a standing row. */
  lemma {:induction false} GrantedIsAccounted(existing: set<Privilege>, start: int, events: seq<Event>)
    ensures Accounted(Run(Fresh(existing, start), events))
    decreases |events|
  {
    if events != [] {
      var init := events[..|events| - 1];
      GrantedIsAccounted(existing, start, init);
      StepKeeps(Run(Fresh(existing, start), init), events[|events| - 1]);
    }
  }

  lemma NothingUpHoldsNothing(w: World)
    requires Accounted(w)
    ensures (forall t :: 0 <= t < |w.tables| ==> !Up(w.tables[t].phase)) ==> w.granted == {}
  {
    forall k | k in w.granted
      ensures exists t :: 0 <= t < |w.tables| && Up(w.tables[t].phase)
    {
      var i :| StandsFor(w, i, k);
      assert Up(w.tables[w.rows[i].table].phase);
    }
  }

  /** So once no table is left up, no privilege of this system is left in Doris. */
  lemma NothingLeaks(existing: set<Privilege>, start: int, events: seq<Event>)
    ensures var w := Run(Fresh(existing, start), events);
            (forall t :: 0 <= t < |w.tables| ==> !Up(w.tables[t].phase)) ==> w.granted == {}
  {
    GrantedIsAccounted(existing, start, events);
    NothingUpHoldsNothing(Run(Fresh(existing, start), events));
  }
}
