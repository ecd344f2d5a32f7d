/**
 REVOKE is issued only for what this system granted: a privilege that exists when
 its lease would have it revoked was created by a GRANT of this system that found
 it absent.  The two ways to break this are stated exactly.
 */
module PrivilegeOwnership {
  import opened PrivilegeLease
  import opened PrivilegeLeaks

  /** An existing privilege under a lease that could revoke it came from this system. */
  ghost predicate Honest(w: World) {
    forall k {:trigger LiveLease(w, k)} :: LiveLease(w, k) && k in w.doris ==> k in w.granted
  }

  /** The lease was system-owned and its privilege has been revoked. */
  predicate Spent(w: World, k: Privilege) {
    k in w.leases && w.leases[k].ownership == System && w.leases[k].owned && w.leases[k].state == Revoked
  }

  /**
   The failure that claims somebody else's privilege: the check fails on a spent lease of a key that is
   there again.
   */
  predicate Forges(w: World, a: Attempt) {
    a.fault == CheckFault && a.key in w.doris && Spent(w, a.key)
  }

  lemma AcquireIsHonestIff(w: World, a: Attempt)
    requires Honest(w) && Accounted(w)
    ensures Honest(AfterAcquire(w, a.key, a.fault)) <==> !Forges(w, a)
  {
    var after := AfterAcquire(w, a.key, a.fault);
    forall k | k != a.key
      ensures LiveLease(after, k) == LiveLease(w, k) && (k in after.doris <==> k in w.doris)
              && (k in after.granted <==> k in w.granted)
    {
    }
    assert LiveLease(w, a.key) && a.key in w.doris ==> a.key in w.granted;
    assert LiveLease(after, a.key) && a.key in after.doris && a.key !in after.granted <==> Forges(w, a);
  }

  /** Somebody else's GRANT is taken for this system's exactly if the lease is live although its privilege is gone. */
  lemma OutsideGrantIsHonestIff(w: World, k: Privilege)
    requires Honest(w) && Accounted(w)
    ensures Honest(Step(w, OutsideGrant(k))) <==> !LiveLease(w, k) || k in w.doris
  {
    var after := Step(w, OutsideGrant(k));
    forall j
      ensures LiveLease(after, j) == LiveLease(w, j)
    {
    }
  }

  // ---- runs without a forgery ----------------------------------------------------------------------

  predicate RowsUnforged(w: World, b: nat, t: nat, attempts: seq<Attempt>, n: nat)
    requires n <= |attempts|
  {
    n == 0 || (RowsUnforged(w, b, t, attempts, n - 1)
               && !Forges(AfterGrantRows(w, b, t, attempts, n - 1), attempts[n - 1]))
  }

  predicate TablesUnforged(w: World, b: nat, imports: seq<seq<Attempt>>, n: nat)
    requires n <= |imports|
  {
    n == 0 ||
    var before := AfterImportTables(w, b, imports, n - 1);
    TablesUnforged(w, b, imports, n - 1)
    && RowsUnforged(before.(tables := before.tables + [Table(b, Running)]), b, |before.tables|, imports[n - 1],
                    |imports[n - 1]|)
  }

  predicate Unforged(w: World, e: Event) {
    match e
    case Import(expires, imports) =>
      w.now < expires ==>
      TablesUnforged(w.(batches := w.batches + [Batch(Running, expires, false)]), |w.batches|, imports, |imports|)
    case OutsideGrant(k) => !LiveLease(w, k) || k in w.doris
    case _ => true
  }

  predicate UnforgedRun(w: World, events: seq<Event>)
    decreases |events|
  {
    events == [] ||
    var init := events[..|events| - 1];
    UnforgedRun(w, init) && Unforged(Run(w, init), events[|events| - 1])
  }

  ghost predicate Owning(w: World) {
    Accounted(w) && Honest(w)
  }

  /** Only Doris, its history and the leases decide about honesty. */
  lemma RecordsDoNotMatter(w: World, after: World)
    requires Honest(w) && after.doris == w.doris && after.granted == w.granted && after.leases == w.leases
    ensures Honest(after)
  {
    forall k
      ensures LiveLease(after, k) == LiveLease(w, k)
    {
    }
  }

  lemma {:induction false} GrantRowsAreHonest(w: World, b: nat, t: nat, attempts: seq<Attempt>, n: nat)
    requires Owning(w) && t < |w.tables| && w.tables[t] == Table(b, Running) && n <= |attempts|
    requires RowsUnforged(w, b, t, attempts, n)
    ensures Honest(AfterGrantRows(w, b, t, attempts, n))
  {
    if n > 0 {
      var before := AfterGrantRows(w, b, t, attempts, n - 1);
      GrantRowsAreHonest(w, b, t, attempts, n - 1);
      GrantRowsKeep(w, b, t, attempts, n - 1);
      AcquireIsHonestIff(before, attempts[n - 1]);
      RecordsDoNotMatter(AfterAcquire(before, attempts[n - 1].key, attempts[n - 1].fault),
                         AfterGrantRows(w, b, t, attempts, n));
    }
  }

  lemma ImportTableIsHonest(w: World, b: nat, attempts: seq<Attempt>)
    requires Owning(w) && b < |w.batches|
    requires RowsUnforged(w.(tables := w.tables + [Table(b, Running)]), b, |w.tables|, attempts, |attempts|)
    ensures Honest(AfterImportTable(w, b, attempts))
  {
    var t := |w.tables|;
    var begun := w.(tables := w.tables + [Table(b, Running)]);
    BegunIsOwning(w, begun);
    GrantRowsAreHonest(begun, b, t, attempts, |attempts|);
    RecordsDoNotMatter(AfterGrantRows(begun, b, t, attempts, |attempts|), AfterImportTable(w, b, attempts));
  }

  lemma BegunIsOwning(w: World, begun: World)
    requires Owning(w) && |begun.tables| > 0 && begun == w.(tables := w.tables + [begun.tables[|begun.tables| - 1]])
    requires begun.tables[|begun.tables| - 1].batch < |w.batches|
    ensures Owning(begun)
  {
    RecordsDoNotMatter(w, begun);
    forall k | k in begun.granted
      ensures Held(begun, k)
    {
      var i :| StandsFor(w, i, k);
      assert StandsFor(begun, i, k);
    }
  }

  lemma {:induction false} ImportTablesAreHonest(w: World, b: nat, imports: seq<seq<Attempt>>, n: nat)
    requires Owning(w) && b < |w.batches| && n <= |imports| && TablesUnforged(w, b, imports, n)
    ensures Honest(AfterImportTables(w, b, imports, n))
  {
    if n > 0 {
      ImportTablesAreHonest(w, b, imports, n - 1);
      ImportTablesKeep(w, b, imports, n - 1);
      ImportTableIsHonest(AfterImportTables(w, b, imports, n - 1), b, imports[n - 1]);
    }
  }

  lemma ImportIsHonest(w: World, expires: int, imports: seq<seq<Attempt>>)
    requires Owning(w) && Unforged(w, Import(expires, imports))
    ensures Honest(AfterImport(w, expires, imports))
  {
    if w.now < expires {
      var begun := w.(batches := w.batches + [Batch(Running, expires, false)]);
      BatchesDoNotMatter(w, begun);
      RecordsDoNotMatter(w, begun);
      ImportTablesAreHonest(begun, |w.batches|, imports, |imports|);
      RecordsDoNotMatter(AfterImportTables(begun, |w.batches|, imports, |imports|), AfterImport(w, expires, imports));
    }
  }

  lemma RevokeRowIsHonest(w: World, t: nat, i: nat, fails: bool)
    requires Honest(w) && i < |w.rows|
    ensures Honest(AfterRevokeRow(w, t, i, fails))
  {
    var after := AfterRevokeRow(w, t, i, fails);
    forall k | LiveLease(after, k) && k in after.doris
      ensures k in after.granted
    {
      assert LiveLease(w, k);
    }
  }

  lemma PassRowsAreHonest(p: Pass, t: nat, faults: set<nat>, n: nat)
    requires Honest(p.w) && n <= |p.w.rows|
    ensures Honest(PassRows(p, t, faults, n).w)
  {
    var inv := (q: Pass, i: nat) => Honest(q.w);
    forall q: Pass, i: nat | i < |q.w.rows| && inv(q, i)
      ensures inv(PassRow(q, t, i, faults), i + 1)
    {
      RevokeRowIsHonest(q.w, t, i, i in faults);
    }
    OverRows(inv, p, t, faults, n);
  }

  lemma PassTablesAreHonest(p: Pass, b: nat, faults: set<nat>, n: nat)
    requires Honest(p.w) && n <= |p.w.tables|
    ensures Honest(PassTables(p, b, faults, n).w)
  {
    var inv := (q: Pass, t: nat) => Honest(q.w);
    forall q: Pass, t: nat | t < |q.w.tables| && inv(q, t)
      ensures inv(PassTable(q, b, t, faults), t + 1)
    {
      var rows := PassRows(Pass(q.w, false), t, faults, |q.w.rows|).w;
      PassRowsAreHonest(Pass(q.w, false), t, faults, |q.w.rows|);
      RecordsDoNotMatter(rows, rows.(tables := PassTable(q, b, t, faults).w.tables));
    }
    OverTables(inv, p, b, faults, n);
  }

  lemma OfflineIsHonest(w: World, b: nat, faults: set<nat>)
    requires Honest(w)
    ensures Honest(AfterOffline(w, b, faults))
  {
    if b < |w.batches| {
      PassTablesAreHonest(Pass(w, false), b, faults, |w.tables|);
      RecordsDoNotMatter(PassTables(Pass(w, false), b, faults, |w.tables|).w, AfterOffline(w, b, faults));
    }
  }

  lemma StepIsHonest(w: World, e: Event)
    requires Owning(w) && Unforged(w, e)
    ensures Honest(Step(w, e))
  {
    match e
    case Import(expires, imports) => ImportIsHonest(w, expires, imports);
    case Offline(b, faults) => OfflineIsHonest(w, b, faults);
    case OutsideGrant(k) => OutsideGrantIsHonestIff(w, k);
    case OutsideRevoke(k) =>
      forall j
        ensures LiveLease(Step(w, e), j) == LiveLease(w, j)
      {
      }
    case _ => RecordsDoNotMatter(w, Step(w, e));
  }

  lemma {:induction false} RunIsHonest(existing: set<Privilege>, start: int, events: seq<Event>)
    requires UnforgedRun(Fresh(existing, start), events)
    ensures Owning(Run(Fresh(existing, start), events))
    decreases |events|
  {
    GrantedIsAccounted(existing, start, events);
    if events != [] {
      var init := events[..|events| - 1];
      RunIsHonest(existing, start, init);
      StepIsHonest(Run(Fresh(existing, start), init), events[|events| - 1]);
    }
  }

  /** The records at the moment an offline of batch `b` reaches row `i` in its pass over table `t`. */
  function DuringOffline(w: World, b: nat, faults: set<nat>, t: nat, i: nat): World
    requires t < |w.tables| && i <= |w.rows|
  {
    PassRows(Pass(PassTables(Pass(w, false), b, faults, t).w, false), t, faults, i).w
  }

  /** Every REVOKE that any offline of any run issues, whether it then fails or not, is for a grant of this system. */
  lemma RevokesOnlyOwnGrants(existing: set<Privilege>, start: int, events: seq<Event>, b: nat, faults: set<nat>, t: nat,
                             i: nat)
    requires UnforgedRun(Fresh(existing, start), events)
    requires var w := Run(Fresh(existing, start), events); t < |w.tables| && i < |w.rows|
    ensures var at := DuringOffline(Run(Fresh(existing, start), events), b, faults, t, i);
            i < |at.rows| && (Plan(at, i) == Revoke && at.rows[i].key in at.doris ==> at.rows[i].key in at.granted)
  {
    RunIsHonest(existing, start, events);
    var w := Run(Fresh(existing, start), events);
    var p := PassTables(Pass(w, false), b, faults, t);
    PassTablesAreHonest(Pass(w, false), b, faults, t);
    PassRowsAreHonest(Pass(p.w, false), t, faults, i);
    var at := DuringOffline(w, b, faults, t, i);
    assert Plan(at, i) == Revoke ==> LiveLease(at, at.rows[i].key);
  }
}
