/**
 The outbox rows, updated in place by a dispatcher that nobody interrupts.

 Each method makes of the rows what `StageDispatch` says, and so keeps what
 `DispatchSafety` proves of every interleaving: one row for each stage, a
 recorded dispatch only for a launched target, and at most one start of a run.
 */
module DispatchOutbox {
  import opened Basics
  import opened StageDispatch
  import opened DispatchSafety

  ghost predicate StaysSafe(w: World, after: World) {
    Safe(w) ==> Safe(after)
  }

  lemma DispatchStaysSafe(w: World, worker: nat, i: nat, outcome: Sending)
    ensures StaysSafe(w, AfterDispatch(w, worker, i, outcome))
  {
    if Safe(w) { DispatchKeepsSafe(w, worker, i, outcome); }
  }

  class Outbox {
    var rows: seq<Row>
    var works: map<Target, Work>
    var holds: map<nat, Hold>
    var sent: set<Target>
    var starts: map<Target, nat>
    var now: int

    ghost function View(): World
      reads this
    {
      World(rows, works, holds, sent, starts, now)
    }

    constructor (start: int)
      ensures View() == Fresh(start) && Safe(View())
    {
      rows, works, holds, sent, starts, now := [], map[], map[], {}, map[], start;
      new;
      RunIsSafe(start, []);
    }

    method Register(tag: Tag) returns (i: nat)
      modifies this
      ensures View() == AfterRegister(old(View()), tag)
      ensures StaysSafe(old(View()), View())
      ensures i < |rows| && rows[i].tag == tag && (Registered(old(rows), tag) ==> i < |old(rows)|)
    {
      if Safe(View()) { RegisterKeepsSafe(View(), tag); }
      i := 0;
      while i < |rows|
        invariant i <= |rows|
        invariant forall j :: 0 <= j < i ==> rows[j].tag != tag
        invariant View() == old(View())
      {
        if rows[i].tag == tag { return; }
        i := i + 1;
      }
      rows := rows + [Row(tag, Pending, 0, None, None)];
      if tag.target !in works { works := works[tag.target := Initial]; }
    }

    method ResetStaleRows()
      modifies this
      ensures View() == Step(old(View()), ResetStale)
      ensures StaysSafe(old(View()), View())
    {
      if Safe(View()) { ResetKeepsSafe(View()); }
      ghost var was := rows;
      for i := 0 to |rows|
        invariant |rows| == |was| && rows == ResetRows(was, now, i) && View() == old(View()).(rows := rows)
        invariant forall j :: i <= j < |rows| ==> rows[j] == was[j]
      {
        if rows[i].status == Dispatching && rows[i].lastAttempt.Some? && rows[i].lastAttempt.value < now - STALE_AFTER {
          rows := rows[i := rows[i].(status := Pending, nextAttempt := Some(now))];
        }
      }
    }

    method ReconcileWithTargets()
      modifies this
      ensures View() == Step(old(View()), Reconcile)
      ensures StaysSafe(old(View()), View())
    {
      if Safe(View()) { ReconcileKeepsSafe(View()); }
      ghost var was := rows;
      for i := 0 to |rows|
        invariant |rows| == |was| && rows == ReconcileRows(was, works, i) && View() == old(View()).(rows := rows)
        invariant forall j :: i <= j < |rows| ==> rows[j] == was[j]
      {
        if rows[i].status == Succeeded || rows[i].status == Failed { continue; }
        var state := TargetState(works, rows[i].tag.target);
        if state.None? { continue; }
        rows := rows[i := rows[i].(status := state.value)];
      }
    }

    method ClaimRow(worker: nat, i: nat) returns (claimed: bool)
      requires i < |rows| && worker !in holds
      modifies this
      ensures View() == AfterClaim(old(View()), worker, i)
      ensures claimed <==> DueAt(old(rows)[i], now)
      ensures claimed ==> Holding(View(), worker) && holds[worker] == Hold(i, false)
      ensures StaysSafe(old(View()), View())
    {
      if Safe(View()) { ClaimKeepsSafe(View(), worker, i); }
      claimed := rows[i].status == Pending && (rows[i].nextAttempt.None? || rows[i].nextAttempt.value <= now);
      if claimed {
        rows := rows[i := Row(rows[i].tag, Dispatching, rows[i].attempts + 1, Some(now), None)];
        holds := holds[worker := Hold(i, false)];
      }
    }

    /** What follows a claim: the target is handed over and the row recorded, deferred or retried. */
    method HandOver(worker: nat, i: nat, outcome: Sending) returns (dispatched: bool)
      requires i < |rows| && worker in holds && holds[worker] == Hold(i, false) && rows[i].attempts > 0
      modifies this
      ensures View() == AfterHandOver(old(View()), worker, outcome)
      ensures |rows| == |old(rows)| && holds == old(holds) - {worker} && works == old(works) && now == old(now)
      ensures dispatched <==> rows[i].status != Pending
    {
      var target := rows[i].tag.target;
      dispatched := false;
      if outcome == Refused {
        rows := rows[i := rows[i].(status := Pending, nextAttempt := Some(now + RetryDelay(Max(rows[i].attempts, 1))))];
      } else if target.kind == Sm4 {
        var state := TargetState(works, target);
        dispatched := state.Some?;
        rows := rows[i := if dispatched then rows[i].(status := state.value)
                          else rows[i].(status := Pending, nextAttempt := Some(now + DEFER_SECONDS))];
        assert dispatched ==> rows[i].status != Pending;
      } else {
        sent := sent + {target};
        rows := rows[i := rows[i].(status := Dispatched)];
        dispatched := true;
      }
      holds := holds - {worker};
    }

    method DispatchRow(worker: nat, i: nat, outcome: Sending) returns (claimed: bool, dispatched: bool)
      requires i < |rows| && worker !in holds
      modifies this
      ensures View() == AfterDispatch(old(View()), worker, i, outcome) && StaysSafe(old(View()), View())
      ensures |rows| == |old(rows)| && worker !in holds && works == old(works) && now == old(now)
      ensures claimed <==> DueAt(old(rows)[i], now)
      ensures dispatched <==> claimed && rows[i].status != Pending
    {
      DispatchStaysSafe(View(), worker, i, outcome);
      claimed := ClaimRow(worker, i);
      dispatched := false;
      if claimed {
        dispatched := HandOver(worker, i, outcome);
      }
    }

    method SelectDue(limit: nat) returns (ids: seq<nat>)
      ensures ids == DueRows(rows, now, limit, |rows|)
    {
      ids := [];
      for i := 0 to |rows|
        invariant ids == DueRows(rows, now, limit, i)
      {
        if |ids| < limit && DueAt(rows[i], now) { ids := ids + [i]; }
      }
    }

    method DispatchSelected(worker: nat, ids: seq<nat>, outcomes: map<nat, Sending>)
      returns (dispatched: nat, missed: nat)
      requires worker !in holds && forall j :: 0 <= j < |ids| ==> ids[j] < |rows|
      modifies this
      ensures View() == AfterDispatches(old(View()), worker, ids, outcomes, |ids|) && dispatched + missed <= |ids|
      ensures StaysSafe(old(View()), View())
    {
      if Safe(View()) { PassKeepsSafe(View(), worker, ids, outcomes, |ids|); }
      ghost var ready := View();
      dispatched, missed := 0, 0;
      for n := 0 to |ids|
        invariant worker !in holds && |rows| == |ready.rows| && dispatched + missed <= n
        invariant View() == AfterDispatches(ready, worker, ids, outcomes, n)
      {
        var claimed, done := DispatchRow(worker, ids[n], Outcome(outcomes, ids[n]));
        if claimed {
          if done { dispatched := dispatched + 1; } else { missed := missed + 1; }
        }
      }
    }

    /** One pass: stale claims are reset, rows reconciled with their targets, and due rows dispatched. */
    method DispatchPending(worker: nat, limit: int, outcomes: map<nat, Sending>) returns (dispatched: nat, missed: nat)
      requires worker !in holds
      modifies this
      ensures var ready := Step(Step(old(View()), ResetStale), Reconcile);
              var ids := DueRows(ready.rows, ready.now, Max(1, Min(limit, 500)), |ready.rows|);
              View() == AfterDispatches(ready, worker, ids, outcomes, |ids|) && dispatched + missed <= |ids|
      ensures StaysSafe(old(View()), View())
    {
      ResetStaleRows();
      ReconcileWithTargets();
      var ids := SelectDue(Max(1, Min(limit, 500)));
      dispatched, missed := DispatchSelected(worker, ids, outcomes);
    }
  }
}
