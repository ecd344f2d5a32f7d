/**
 Withdrawing everything: once every batch has been taken offline without a failing
 REVOKE, in whatever order, no privilege that this system granted is left.
 */
module PrivilegeShutdown {
  import opened PrivilegeLease
  import opened PrivilegeLeaks
  import opened PrivilegeImports
  import opened PrivilegeOffline
  import opened PrivilegeReferences

  lemma StepKeepsTablesClosed(w: World, e: Event)
    requires Linked(w) && TablesClosed(w)
    ensures TablesClosed(Step(w, e))
  {
    match e
    case Import(expires, imports) =>
      if w.now < expires {
        ImportAdds(w, expires, imports);
        ImportedIsLinked(w, Step(w, e), expires, Flat(imports, |imports|));
      }
    case Offline(b, faults) => PassTablesGoDown(Pass(w, false), b, faults, |w.tables|);
    case _ =>
  }

  lemma {:induction false} RunClosesTables(existing: set<Privilege>, start: int, events: seq<Event>)
    ensures TablesClosed(Run(Fresh(existing, start), events))
    decreases |events|
  {
    if events != [] {
      var init := events[..|events| - 1];
      RunClosesTables(existing, start, init);
      GrantedIsAccounted(existing, start, init);
      StepKeepsTablesClosed(Run(Fresh(existing, start), init), events[|events| - 1]);
    }
  }

  lemma NothingIsHurt(p: Pass, b: nat)
    requires !p.hurt
    ensures !PassTables(p, b, {}, |p.w.tables|).hurt
  {
    var inv := (q: Pass, t: nat) => !q.hurt;
    forall q: Pass, t: nat | t < |q.w.tables| && inv(q, t)
      ensures inv(PassTable(q, b, t, {}), t + 1)
    {
      RowsAreNotHurt(Pass(q.w, false), t);
    }
    OverTables(inv, p, b, {}, |p.w.tables|);
  }

  lemma RowsAreNotHurt(p: Pass, t: nat)
    requires !p.hurt
    ensures !PassRows(p, t, {}, |p.w.rows|).hurt
  {
    var inv := (q: Pass, i: nat) => !q.hurt;
    OverRows(inv, p, t, {}, |p.w.rows|);
  }

  /** The tables of this batch and every table that was down are down, and no table changes its batch. */
  lemma OfflineTakesTablesDown(w: World, b: nat)
    requires TablesClosed(w) && b < |w.batches|
    ensures var after := AfterOffline(w, b, {});
            TablesClosed(after) && |after.tables| == |w.tables| && |after.batches| == |w.batches|
            && AllDown(after, b, |w.tables|)
            && forall t :: 0 <= t < |w.tables| ==>
                 after.tables[t].batch == w.tables[t].batch && (!Up(w.tables[t].phase) ==> !Up(after.tables[t].phase))
  {
    NothingIsHurt(Pass(w, false), b);
    PassTablesGoDown(Pass(w, false), b, {}, |w.tables|);
    PassShrinks(w, b, {});
  }

  function OfflineEach(order: seq<nat>): (events: seq<Event>)
    ensures |events| == |order|
  {
    seq(|order|, i requires 0 <= i < |order| => Offline(order[i], {}))
  }

  /** What remains up after the first `n` of these offlines belongs to none of those batches. */
  ghost predicate DownFor(w: World, order: seq<nat>) {
    forall t :: 0 <= t < |w.tables| && w.tables[t].batch in order ==> !Up(w.tables[t].phase)
  }

  lemma {:induction false} OfflineEachTakesDown(w: World, order: seq<nat>)
    requires Linked(w) && TablesClosed(w)
    ensures var after := Run(w, OfflineEach(order));
            TablesClosed(after) && |after.tables| == |w.tables| && |after.batches| == |w.batches|
            && DownFor(after, order)
            && forall t :: 0 <= t < |w.tables| ==> after.tables[t].batch == w.tables[t].batch
    decreases |order|
  {
    if order != [] {
      var init, b := order[..|order| - 1], order[|order| - 1];
      assert OfflineEach(order)[..|order| - 1] == OfflineEach(init);
      OfflineEachTakesDown(w, init);
      var mid := Run(w, OfflineEach(init));
      if b < |mid.batches| {
        OfflineTakesTablesDown(mid, b);
      }
      assert order == init + [b];
    }
  }

  lemma {:induction false} OfflineEachKeeps(w: World, order: seq<nat>)
    requires Accounted(w)
    ensures Accounted(Run(w, OfflineEach(order)))
    decreases |order|
  {
    if order != [] {
      var init := order[..|order| - 1];
      assert OfflineEach(order)[..|order| - 1] == OfflineEach(init);
      OfflineEachKeeps(w, init);
      OfflineKeeps(Run(w, OfflineEach(init)), order[|order| - 1], {});
    }
  }

  /** Taking every batch offline, in any order and without a failure, revokes all that this system granted. */
  lemma {:induction false} OfflineOfAllLeavesNothing(existing: set<Privilege>, start: int, events: seq<Event>,
                                                     order: seq<nat>)
    requires forall b: nat :: b < |Run(Fresh(existing, start), events).batches| ==> b in order
    ensures Run(Run(Fresh(existing, start), events), OfflineEach(order)).granted == {}
  {
    GrantedIsAccounted(existing, start, events);
    RunClosesTables(existing, start, events);
    OfflineOfAllRevokes(Run(Fresh(existing, start), events), order);
  }

  lemma {:induction false} OfflineOfAllRevokes(w: World, order: seq<nat>)
    requires Accounted(w) && TablesClosed(w) && forall b: nat :: b < |w.batches| ==> b in order
    ensures Run(w, OfflineEach(order)).granted == {}
  {
    var after := Run(w, OfflineEach(order));
    OfflineEachTakesDown(w, order);
    OfflineEachKeeps(w, order);
    forall t | 0 <= t < |after.tables|
      ensures !Up(after.tables[t].phase)
    {
      assert after.tables[t].batch < |w.batches|;
    }
    NothingUpHoldsNothing(after);
  }
}
