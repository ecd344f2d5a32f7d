/**
 What taking a batch offline does to the references that are counted as active:
 the other batches keep theirs whatever fails, and the batch's own rows keep theirs
 exactly if no two of them stand for a privilege that nobody else holds.
 */
module PrivilegeOffline {
  import opened PrivilegeLease
  import opened PrivilegeLeaks

  ghost predicate Present(w: World) {
    forall i {:trigger ActiveRow(w, i)} :: ActiveRow(w, i) ==> w.rows[i].key in w.doris
  }

  /** A standing row of an unexpired batch is already active: nothing can revive it unnoticed. */
  ghost predicate Unrevivable(w: World) {
    forall i {:trigger Standing(w, i)} :: Standing(w, i) ==>
      w.rows[i].batch < |w.batches| && (w.batches[w.rows[i].batch].expires > w.now ==> BatchOn(w, w.rows[i].batch))
  }

  /** Imports are whole transactions, so no table is left running between them. */
  predicate TablesClosed(w: World) {
    forall t :: 0 <= t < |w.tables| ==> w.tables[t].phase != Running
  }

  /** Two standing rows of the batch share a privilege that its lease would revoke and no other batch refers to. */
  predicate TornPair(w: World, b: nat, i: int, j: int) {
    i != j && Standing(w, i) && Standing(w, j) && w.rows[i].batch == b && w.rows[j].batch == b
    && w.rows[i].key == w.rows[j].key
    && LiveLease(w, w.rows[i].key) && References(w, w.rows[i].key, b, |w.rows|) == 0
  }

  /** The revoke of one of the pair may fail and leave its row active, and that of the other still succeed. */
  ghost predicate Torn(w: World, b: nat) {
    b < |w.batches| && w.batches[b].expires > w.now && exists i, j :: TornPair(w, b, i, j)
  }

  // ---- counting ---------------------------------------------------------------------------------------

  lemma {:induction false} ActiveIsCounted(w: World, k: Privilege, b: nat, j: nat, n: nat)
    requires j < n <= |w.rows| && ActiveRow(w, j) && w.rows[j].key == k && w.rows[j].batch != b
    ensures References(w, k, b, n) > 0
  {
    if j < n - 1 {
      ActiveIsCounted(w, k, b, j, n - 1);
    }
  }

  lemma {:induction false} CountedIsActive(w: World, k: Privilege, b: nat, n: nat) returns (j: nat)
    requires n <= |w.rows| && References(w, k, b, n) > 0
    ensures j < n && ActiveRow(w, j) && w.rows[j].key == k && w.rows[j].batch != b
  {
    j := n - 1;
    if !(ActiveRow(w, n - 1) && w.rows[n - 1].key == k && w.rows[n - 1].batch != b) {
      j := CountedIsActive(w, k, b, n - 1);
    }
  }

  /** Where each active reference of other batches is still active, none of them is lost to the count. */
  lemma {:induction false} ReferencesStay(w: World, after: World, k: Privilege, b: nat)
    requires |after.rows| == |w.rows|
    requires forall j {:trigger ActiveRow(w, j)} :: ActiveRow(w, j) && w.rows[j].batch != b ==>
               ActiveRow(after, j) && after.rows[j].key == w.rows[j].key && after.rows[j].batch == w.rows[j].batch
    requires References(after, k, b, |after.rows|) == 0
    ensures References(w, k, b, |w.rows|) == 0
  {
    if References(w, k, b, |w.rows|) > 0 {
      var j := CountedIsActive(w, k, b, |w.rows|);
      ActiveIsCounted(after, k, b, j, |after.rows|);
    }
  }

  // ---- a pass over rows and tables --------------------------------------------------------------------------

  /** An offline in progress changes no key and no batch, and lets rows fall but never stand up again. */
  ghost predicate Shrinks(w: World, after: World) {
    after.batches == w.batches && after.now == w.now && |after.rows| == |w.rows| && |after.tables| == |w.tables|
    && (forall i :: 0 <= i < |w.rows| ==> after.rows[i] == w.rows[i].(revoke := after.rows[i].revoke))
    && (forall t :: 0 <= t < |w.tables| ==>
          after.tables[t].batch == w.tables[t].batch
          && (after.tables[t].phase == w.tables[t].phase || after.tables[t].phase == Offlined))
    && (forall i {:trigger Standing(after, i)} :: Standing(after, i) ==> Standing(w, i))
  }

  lemma ShrinksTrans(w: World, mid: World, after: World)
    requires Shrinks(w, mid) && Shrinks(mid, after)
    ensures Shrinks(w, after)
  {
    forall i | 0 <= i < |w.rows|
      ensures after.rows[i] == w.rows[i].(revoke := after.rows[i].revoke)
    {
      assert mid.rows[i] == w.rows[i].(revoke := mid.rows[i].revoke);
    }
  }

  lemma RevokeRowShrinks(w: World, mid: World, t: nat, i: nat, fails: bool)
    requires Shrinks(w, mid) && i < |mid.rows|
    ensures Shrinks(w, AfterRevokeRow(mid, t, i, fails))
  {
    ShrinksTrans(w, mid, AfterRevokeRow(mid, t, i, fails));
  }

  function Finished(w: World, t: nat): World
    requires t < |w.tables|
  {
    w.(tables := w.tables[t := w.tables[t].(phase := Offlined)])
  }

  lemma FinishingShrinks(w: World, mid: World, t: nat)
    requires Shrinks(w, mid) && t < |mid.tables|
    ensures Shrinks(w, Finished(mid, t))
  {
    ShrinksTrans(w, mid, Finished(mid, t));
  }

  lemma PassTableShrinks(w: World, p: Pass, b: nat, t: nat, faults: set<nat>)
    requires Shrinks(w, p.w) && t < |p.w.tables|
    ensures Shrinks(w, PassTable(p, b, t, faults).w)
  {
    var inv := (q: Pass, i: nat) => q.w.tables == p.w.tables && Shrinks(w, q.w);
    forall q: Pass, i: nat | i < |q.w.rows| && inv(q, i)
      ensures inv(PassRow(q, t, i, faults), i + 1)
    {
      RevokeRowShrinks(w, q.w, t, i, i in faults);
    }
    OverRows(inv, Pass(p.w, false), t, faults, |p.w.rows|);
    FinishingShrinks(w, PassRows(Pass(p.w, false), t, faults, |p.w.rows|).w, t);
  }

  lemma PassShrinks(w: World, b: nat, faults: set<nat>)
    ensures Shrinks(w, PassTables(Pass(w, false), b, faults, |w.tables|).w)
  {
    var inv := (q: Pass, t: nat) => Shrinks(w, q.w);
    forall q: Pass, t: nat | t < |q.w.tables| && inv(q, t)
      ensures inv(PassTable(q, b, t, faults), t + 1)
    {
      PassTableShrinks(w, q, b, t, faults);
    }
    OverTables(inv, Pass(w, false), b, faults, |w.tables|);
  }

  // ---- other batches --------------------------------------------------------------------------------------------

  /** Row `i`, active and of another batch than `b`, still is, and still has its privilege. */
  predicate Spared(w: World, after: World, b: nat, i: nat) {
    i < |w.rows| && |after.rows| == |w.rows| && after.rows[i] == w.rows[i] && w.rows[i].batch != b
    && ActiveRow(after, i)
    && w.rows[i].key in after.doris
  }

  lemma RevokeRowSpares(w: World, p: World, b: nat, t: nat, j: nat, fails: bool, i: nat)
    requires Spared(w, p, b, i) && j < |p.rows| && (p.rows[j].table == t ==> p.rows[j].batch == b)
    ensures Spared(w, AfterRevokeRow(p, t, j, fails), b, i)
  {
    if Revocable(p, j, t) && p.rows[j].key == p.rows[i].key {
      ActiveIsCounted(p, p.rows[i].key, b, i, |p.rows|);
    }
  }

  lemma PassTableSpares(w: World, p: Pass, b: nat, t: nat, faults: set<nat>, i: nat)
    requires Linked(w) && Shrinks(w, p.w) && Spared(w, p.w, b, i) && t < |p.w.tables|
    ensures var q := PassTable(p, b, t, faults).w; Shrinks(w, q) && Spared(w, q, b, i)
  {
    if p.w.tables[t].batch == b && (p.w.tables[t].phase == Succeeded || p.w.tables[t].phase == Partial) {
      var inv := (q: Pass, j: nat) => q.w.tables == p.w.tables && Shrinks(w, q.w) && Spared(w, q.w, b, i);
      forall q: Pass, j: nat | j < |q.w.rows| && inv(q, j)
        ensures inv(PassRow(q, t, j, faults), j + 1)
      {
        RevokeRowShrinks(w, q.w, t, j, j in faults);
        RevokeRowSpares(w, q.w, b, t, j, j in faults, i);
      }
      OverRows(inv, Pass(p.w, false), t, faults, |p.w.rows|);
      FinishingShrinks(w, PassRows(Pass(p.w, false), t, faults, |p.w.rows|).w, t);
    }
  }

  /** Whatever fails, an offline leaves the active references of other batches active and their privileges in Doris. */
  lemma OfflineSpares(w: World, b: nat, faults: set<nat>, i: nat)
    requires Linked(w) && ActiveRow(w, i) && w.rows[i].key in w.doris && w.rows[i].batch != b
    ensures Spared(w, AfterOffline(w, b, faults), b, i)
  {
    if b < |w.batches| {
      var inv := (q: Pass, t: nat) => Shrinks(w, q.w) && Spared(w, q.w, b, i);
      forall q: Pass, t: nat | t < |q.w.tables| && inv(q, t)
        ensures inv(PassTable(q, b, t, faults), t + 1)
      {
        PassTableSpares(w, q, b, t, faults, i);
      }
      OverTables(inv, Pass(w, false), b, faults, |w.tables|);
    }
  }

  // ---- the batch itself: where no pair is torn --------------------------------------------------------------------

  /** What every part of the pass keeps, measured against the world `w` in which it began. */
  ghost predicate PassSafe(w: World, p: World, b: nat) {
    Shrinks(w, p) && Present(p) && (forall k {:trigger LiveLease(p, k)} :: LiveLease(p, k) ==> LiveLease(w, k))
    && (forall i {:trigger ActiveRow(w, i)} :: ActiveRow(w, i) && w.rows[i].batch != b ==> ActiveRow(p, i))
  }

  /** A row that is revoked while another active row has its privilege was one of a torn pair. */
  lemma RevokedInUseIsTorn(w: World, p: World, b: nat, t: nat, i: nat, j: nat)
    requires Linked(w) && PassSafe(w, p, b) && t < |w.tables| && w.tables[t].batch == b && Up(p.tables[t].phase)
    requires i < |p.rows| && Revocable(p, i, t) && Plan(p, i) == Revoke
    requires j != i && ActiveRow(p, j) && p.rows[j].key == p.rows[i].key
    ensures Torn(w, b)
  {
    var k := p.rows[i].key;
    assert p.rows[i] == w.rows[i].(revoke := p.rows[i].revoke) && p.rows[j] == w.rows[j].(revoke := p.rows[j].revoke);
    assert Standing(p, i);
    ReferencesStay(w, p, k, b);
    if w.rows[j].batch != b {
      ActiveIsCounted(p, k, b, j, |p.rows|);
    }
    assert LiveLease(p, k);
    assert TornPair(w, b, i, j);
  }

  lemma RevokeRowIsSafe(w: World, p: World, b: nat, t: nat, i: nat, fails: bool)
    requires Linked(w) && PassSafe(w, p, b) && !Torn(w, b) && t < |w.tables| && w.tables[t].batch == b
             && Up(p.tables[t].phase)
    requires i < |p.rows|
    ensures PassSafe(w, AfterRevokeRow(p, t, i, fails), b)
  {
    var after := AfterRevokeRow(p, t, i, fails);
    RevokeRowShrinks(w, p, t, i, fails);
    forall j | ActiveRow(after, j)
      ensures after.rows[j].key in after.doris
    {
      assert ActiveRow(p, j);
      if j != i && p.rows[j].key == p.rows[i].key && Revocable(p, i, t) && Plan(p, i) == Revoke {
        RevokedInUseIsTorn(w, p, b, t, i, j);
      }
    }
    forall k | LiveLease(after, k)
      ensures LiveLease(w, k)
    {
      assert LiveLease(p, k);
    }
    forall j | ActiveRow(w, j) && w.rows[j].batch != b
      ensures ActiveRow(after, j)
    {
      assert ActiveRow(p, j);
    }
  }

  lemma FinishingIsSafe(w: World, p: World, b: nat, t: nat)
    requires Linked(w) && PassSafe(w, p, b) && t < |w.tables| && w.tables[t].batch == b
    ensures PassSafe(w, Finished(p, t), b)
  {
    var after := Finished(p, t);
    FinishingShrinks(w, p, t);
    forall i | ActiveRow(after, i)
      ensures after.rows[i].key in after.doris
    {
      assert ActiveRow(p, i);
    }
    forall k | LiveLease(after, k)
      ensures LiveLease(w, k)
    {
      assert LiveLease(p, k);
    }
    forall i | ActiveRow(w, i) && w.rows[i].batch != b
      ensures ActiveRow(after, i)
    {
      assert ActiveRow(p, i) && p.rows[i] == w.rows[i].(revoke := p.rows[i].revoke);
    }
  }

  lemma PassTableIsSafe(w: World, p: Pass, b: nat, t: nat, faults: set<nat>)
    requires Linked(w) && PassSafe(w, p.w, b) && !Torn(w, b) && t < |p.w.tables|
    ensures PassSafe(w, PassTable(p, b, t, faults).w, b)
  {
    if p.w.tables[t].batch == b && (p.w.tables[t].phase == Succeeded || p.w.tables[t].phase == Partial) {
      var inv := (q: Pass, i: nat) => q.w.tables == p.w.tables && PassSafe(w, q.w, b);
      forall q: Pass, i: nat | i < |q.w.rows| && inv(q, i)
        ensures inv(PassRow(q, t, i, faults), i + 1)
      {
        RevokeRowIsSafe(w, q.w, b, t, i, i in faults);
      }
      OverRows(inv, Pass(p.w, false), t, faults, |p.w.rows|);
      FinishingIsSafe(w, PassRows(Pass(p.w, false), t, faults, |p.w.rows|).w, b, t);
    }
  }

  lemma PassTablesAreSafe(w: World, b: nat, faults: set<nat>)
    requires Linked(w) && Present(w) && !Torn(w, b)
    ensures PassSafe(w, PassTables(Pass(w, false), b, faults, |w.tables|).w, b)
  {
    var inv := (q: Pass, t: nat) => PassSafe(w, q.w, b);
    forall q: Pass, t: nat | t < |q.w.tables| && inv(q, t)
      ensures inv(PassTable(q, b, t, faults), t + 1)
    {
      PassTableIsSafe(w, q, b, t, faults);
    }
    OverTables(inv, Pass(w, false), b, faults, |w.tables|);
  }

  lemma OfflineIsSafe(w: World, b: nat, faults: set<nat>)
    requires Linked(w) && Present(w) && Unrevivable(w) && !Torn(w, b)
    ensures Present(AfterOffline(w, b, faults))
  {
    if b < |w.batches| {
      var p := PassTables(Pass(w, false), b, faults, |w.tables|);
      PassTablesAreSafe(w, b, faults);
      forall i | ActiveRow(AfterOffline(w, b, faults), i)
        ensures p.w.rows[i].key in p.w.doris
      {
        assert Standing(p.w, i);
        assert Standing(w, i);
        assert ActiveRow(p.w, i);
      }
    }
  }

  // ---- the batch itself: where a pair is torn ---------------------------------------------------

  predicate Precedes(w: World, x: nat, y: nat)
    requires x < |w.rows| && y < |w.rows|
  {
    w.rows[x].table < w.rows[y].table || (w.rows[x].table == w.rows[y].table && x < y)
  }

  /** The pass has visited row `y` before it comes to row `i` of table `t`. */
  predicate Passed(w: World, y: nat, t: nat, i: nat)
    requires y < |w.rows|
  {
    w.rows[y].table < t || (w.rows[y].table == t && y < i)
  }

  function AllBut(w: World, y: nat): set<nat> {
    set i: nat {:trigger w.rows[i]} | i < |w.rows| && i != y
  }

  /** The lease stays live until `y` revokes it, and `x` is never revoked. */
  ghost predicate Doomed(w: World, p: World, b: nat, x: nat, y: nat, t: nat, i: nat) {
    TornPair(w, b, x, y) && Shrinks(w, p) && p.rows[x].revoke != RevokeDone
    && if Passed(w, y, t, i) then w.rows[x].key !in p.doris
    else LiveLease(p, w.rows[x].key) && p.rows[y].revoke != RevokeDone
  }

  lemma {:induction false} ReferencesShrink(w: World, after: World, k: Privilege, b: nat)
    requires Shrinks(w, after) && References(w, k, b, |w.rows|) == 0
    ensures References(after, k, b, |after.rows|) == 0
  {
    if References(after, k, b, |after.rows|) > 0 {
      var j := CountedIsActive(after, k, b, |after.rows|);
      assert Standing(w, j) && after.rows[j] == w.rows[j].(revoke := after.rows[j].revoke);
      ActiveIsCounted(w, k, b, j, |w.rows|);
    }
  }

  /** A row of the pair that the pass comes to before `y` has gone is due to be revoked. */
  lemma PairIsRevocable(w: World, p: World, b: nat, x: nat, y: nat, t: nat, i: nat, r: nat)
    requires Doomed(w, p, b, x, y, t, i) && !Passed(w, y, t, i) && (r == x || r == y) && w.rows[r].table == t
    ensures Revocable(p, r, t) && Plan(p, r) == Revoke && p.rows[r].key == w.rows[x].key
  {
    assert p.rows[r] == w.rows[r].(revoke := p.rows[r].revoke);
    ReferencesShrink(w, p, w.rows[x].key, b);
  }

  lemma DoomedRow(w: World, p: World, b: nat, x: nat, y: nat, t: nat, i: nat)
    requires Doomed(w, p, b, x, y, t, i) && i < |p.rows|
    ensures Doomed(w, AfterRevokeRow(p, t, i, i in AllBut(w, y)), b, x, y, t, i + 1)
  {
    RevokeRowShrinks(w, p, t, i, i in AllBut(w, y));
    if i == y && w.rows[y].table == t {
      PairIsRevocable(w, p, b, x, y, t, i, y);
    }
  }

  lemma DoomedTable(w: World, p: Pass, b: nat, x: nat, y: nat, t: nat)
    requires Linked(w) && Doomed(w, p.w, b, x, y, t, 0) && Precedes(w, x, y) && t < |p.w.tables|
    ensures var q := PassRows(Pass(p.w, false), t, AllBut(w, y), |p.w.rows|);
            Doomed(w, q.w, b, x, y, t + 1, 0) && (w.rows[x].table == t ==> q.hurt)
  {
    var inv := (q: Pass, i: nat) =>
        q.w.tables == p.w.tables && Doomed(w, q.w, b, x, y, t, i) && (w.rows[x].table == t && x < i ==> q.hurt);
    forall q: Pass, i: nat | i < |q.w.rows| && inv(q, i)
      ensures inv(PassRow(q, t, i, AllBut(w, y)), i + 1)
    {
      DoomedRow(w, q.w, b, x, y, t, i);
      if i == x && w.rows[x].table == t {
        PairIsRevocable(w, q.w, b, x, y, t, i, x);
      }
    }
    OverRows(inv, Pass(p.w, false), t, AllBut(w, y), |p.w.rows|);
  }

  /** The tables still to come are as they were, and the table of `x`, once passed, is not finished. */
  ghost predicate DoomedPass(w: World, p: Pass, b: nat, x: nat, y: nat, t: nat) {
    Doomed(w, p.w, b, x, y, t, 0) && (forall u :: t <= u < |w.tables| ==> p.w.tables[u] == w.tables[u])
    && (w.rows[x].table < t ==> p.hurt && Up(p.w.tables[w.rows[x].table].phase))
  }

  lemma DoomedPassTable(w: World, p: Pass, b: nat, x: nat, y: nat, t: nat)
    requires Linked(w) && TablesClosed(w) && DoomedPass(w, p, b, x, y, t) && Precedes(w, x, y) && t < |p.w.tables|
    ensures DoomedPass(w, PassTable(p, b, t, AllBut(w, y)), b, x, y, t + 1)
  {
    if p.w.tables[t].batch == b && (p.w.tables[t].phase == Succeeded || p.w.tables[t].phase == Partial) {
      DoomedTable(w, p, b, x, y, t);
      FinishingShrinks(w, PassRows(Pass(p.w, false), t, AllBut(w, y), |p.w.rows|).w, t);
    }
  }

  lemma TornIsLost(w: World, b: nat, x: nat, y: nat)
    requires Linked(w) && TablesClosed(w) && b < |w.batches| && w.batches[b].expires > w.now
    requires TornPair(w, b, x, y) && Precedes(w, x, y)
    ensures var after := AfterOffline(w, b, AllBut(w, y));
            ActiveRow(after, x) && after.rows[x].key == w.rows[x].key && w.rows[x].key !in after.doris
  {
    var inv := (q: Pass, t: nat) => DoomedPass(w, q, b, x, y, t);
    forall q: Pass, t: nat | t < |q.w.tables| && inv(q, t)
      ensures inv(PassTable(q, b, t, AllBut(w, y)), t + 1)
    {
      DoomedPassTable(w, q, b, x, y, t);
    }
    OverTables(inv, Pass(w, false), b, AllBut(w, y), |w.tables|);
    var p := PassTables(Pass(w, false), b, AllBut(w, y), |w.tables|);
    assert p.w.rows[x] == w.rows[x].(revoke := p.w.rows[x].revoke);
  }

  /** Whichever REVOKE statements fail, an offline keeps the active references present: exactly if no pair is torn. */
  lemma OfflineIsSafeIff(w: World, b: nat)
    requires Linked(w) && Present(w) && Unrevivable(w) && TablesClosed(w)
    ensures (forall faults :: Present(AfterOffline(w, b, faults))) <==> !Torn(w, b)
  {
    if Torn(w, b) {
      var i, j :| TornPair(w, b, i, j);
      if Precedes(w, i, j) {
        TornIsLost(w, b, i, j);
      } else {
        TornIsLost(w, b, j, i);
      }
    } else {
      forall faults
        ensures Present(AfterOffline(w, b, faults))
      {
        OfflineIsSafe(w, b, faults);
      }
    }
  }
}
