/**
 What the outbox guarantees in every run: one row for each stage and target, a
 recorded dispatch only after a send or after its target began, at most one start
 of each claimed run, no row that is never tried again, and bounded retry delays.
 */
module DispatchSafety {
  import opened Basics
  import opened StageDispatch

  predicate Launched(w: World, t: Target) {
    t in w.sent || (t in w.works && w.works[t] != Initial)
  }

  predicate RowOk(w: World, row: Row) {
    row.tag.target in w.works
    && (row.status != Pending && row.status != Dispatching ==> Launched(w, row.tag.target))
    && (row.status == Dispatching ==> row.lastAttempt.Some? && row.lastAttempt.value <= w.now)
  }

  predicate RowsOk(w: World) {
    forall i :: 0 <= i < |w.rows| ==> RowOk(w, w.rows[i])
  }

  predicate OneRowEach(rows: seq<Row>) {
    forall i, j :: 0 <= i < j < |rows| ==> rows[i].tag != rows[j].tag
  }

  predicate HoldOk(w: World, hold: Hold) {
    hold.row < |w.rows| && w.rows[hold.row].attempts >= 1 && (hold.sent ==> w.rows[hold.row].tag.target in w.sent)
  }

  predicate HoldsOk(w: World) {
    forall k :: k in w.holds ==> HoldOk(w, w.holds[k])
  }

  predicate TriedFor(w: World, i: int, t: Target) {
    0 <= i < |w.rows| && w.rows[i].tag.target == t && w.rows[i].attempts >= 1
  }

  ghost predicate Tried(w: World, t: Target) {
    exists i :: TriedFor(w, i, t)
  }

  predicate StartOk(w: World, t: Target) {
    Starts(w, t) <= 1 && (Starts(w, t) == 1 ==> t in w.sent && t in w.works && w.works[t] != Initial)
  }

  ghost predicate Safe(w: World) {
    RowsOk(w) && OneRowEach(w.rows) && HoldsOk(w)
    && (forall t :: t in w.sent ==> Tried(w, t))
    && (forall t {:trigger StartOk(w, t)} :: StartOk(w, t))
  }

  // ---- rows change, but not their tags ------------------------------------------------------------

  /** The same rows, each tried at least as often. */
  predicate Continues(rows: seq<Row>, later: seq<Row>) {
    |later| == |rows| && forall i :: 0 <= i < |rows| ==>
    later[i].tag == rows[i].tag && later[i].attempts >= rows[i].attempts
  }

  /** A step that changes rows, holds and what was sent, but no target. */
  lemma RowsStepKeepsSafe(w: World, after: World)
    requires Safe(w) && Continues(w.rows, after.rows) && RowsOk(after) && HoldsOk(after)
    requires after.works == w.works && after.starts == w.starts && w.sent <= after.sent
    requires forall t :: t in after.sent && t !in w.sent ==> Tried(after, t)
    ensures Safe(after)
  {
    forall t | t in w.sent
      ensures Tried(after, t)
    {
      var i :| TriedFor(w, i, t);
      assert TriedFor(after, i, t);
    }
    forall t
      ensures StartOk(after, t)
    {
      assert StartOk(w, t);
    }
  }

  lemma {:induction false} ResetRowsAt(rows: seq<Row>, now: int, n: nat, i: nat)
    requires n <= |rows| && i < |rows|
    ensures ResetRows(rows, now, n)[i] == if i < n then ResetRow(rows[i], now) else rows[i]
  {
    if n > 0 {
      ResetRowsAt(rows, now, n - 1, i);
    }
  }

  lemma {:induction false} ReconcileRowsAt(rows: seq<Row>, works: map<Target, Work>, n: nat, i: nat)
    requires n <= |rows| && i < |rows|
    ensures ReconcileRows(rows, works, n)[i] == if i < n then ReconciledRow(rows[i], works) else rows[i]
  {
    if n > 0 {
      ReconcileRowsAt(rows, works, n - 1, i);
    }
  }

  lemma ResetKeepsSafe(w: World)
    requires Safe(w)
    ensures Safe(Step(w, ResetStale))
  {
    var after := Step(w, ResetStale);
    forall i | 0 <= i < |w.rows|
      ensures after.rows[i] == ResetRow(w.rows[i], w.now)
    {
      ResetRowsAt(w.rows, w.now, |w.rows|, i);
    }
    RowsStepKeepsSafe(w, after);
  }

  lemma ReconcileKeepsSafe(w: World)
    requires Safe(w)
    ensures Safe(Step(w, Reconcile))
  {
    var after := Step(w, Reconcile);
    forall i | 0 <= i < |w.rows|
      ensures after.rows[i] == ReconciledRow(w.rows[i], w.works)
    {
      ReconcileRowsAt(w.rows, w.works, |w.rows|, i);
    }
    RowsStepKeepsSafe(w, after);
  }

  lemma ClaimKeepsSafe(w: World, worker: nat, i: nat)
    requires Safe(w)
    ensures Safe(AfterClaim(w, worker, i))
  {
    var after := AfterClaim(w, worker, i);
    forall k | k in after.holds
      ensures HoldOk(after, after.holds[k])
    {
      if k in w.holds {
        assert HoldOk(w, w.holds[k]);
      }
    }
    RowsStepKeepsSafe(w, after);
  }

  /** A dispatcher lets go, leaving row `i` as `row`. */
  lemma ReleaseKeepsSafe(w: World, after: World, worker: nat, i: nat, row: Row)
    requires Safe(w) && i < |w.rows| && after == w.(rows := w.rows[i := row], holds := w.holds - {worker})
    requires row.tag == w.rows[i].tag && row.attempts == w.rows[i].attempts && RowOk(w, row)
    ensures Safe(after)
  {
    forall k | k in after.holds
      ensures HoldOk(after, after.holds[k])
    {
      assert HoldOk(w, w.holds[k]);
    }
    forall j | 0 <= j < |w.rows|
      ensures RowOk(after, after.rows[j])
    {
      assert RowOk(w, w.rows[j]);
    }
    RowsStepKeepsSafe(w, after);
  }

  lemma RecordKeepsSafe(w: World, worker: nat)
    requires Safe(w)
    ensures Safe(AfterRecord(w, worker))
  {
    if Holding(w, worker) && AfterRecord(w, worker) != w {
      var i := w.holds[worker].row;
      assert HoldOk(w, w.holds[worker]) && RowOk(w, w.rows[i]);
      ReleaseKeepsSafe(w, AfterRecord(w, worker), worker, i, RecordedRow(w.rows[i], w.works, w.now));
    }
  }

  lemma FailKeepsSafe(w: World, worker: nat)
    requires Safe(w)
    ensures Safe(AfterFail(w, worker))
  {
    if Holding(w, worker) {
      var i := w.holds[worker].row;
      assert RowOk(w, w.rows[i]);
      ReleaseKeepsSafe(w, AfterFail(w, worker), worker, i, Retried(w.rows[i], w.now));
    }
  }

  lemma DieKeepsSafe(w: World, worker: nat)
    requires Safe(w)
    ensures Safe(Step(w, Die(worker)))
  {
    var after := Step(w, Die(worker));
    forall k | k in after.holds
      ensures HoldOk(after, after.holds[k])
    {
      assert HoldOk(w, w.holds[k]);
    }
    RowsStepKeepsSafe(w, after);
  }

  lemma SendKeepsSafe(w: World, worker: nat)
    requires Safe(w)
    ensures Safe(AfterSend(w, worker))
  {
    var after := AfterSend(w, worker);
    if Holding(w, worker) {
      var i := w.holds[worker].row;
      assert HoldOk(w, w.holds[worker]);
      assert TriedFor(after, i, w.rows[i].tag.target);
    }
    forall k | k in after.holds
      ensures HoldOk(after, after.holds[k])
    {
      assert HoldOk(w, w.holds[k]);
    }
    forall i | 0 <= i < |after.rows|
      ensures RowOk(after, after.rows[i])
    {
      assert RowOk(w, w.rows[i]);
    }
    RowsStepKeepsSafe(w, after);
  }

  lemma RegisterKeepsSafe(w: World, tag: Tag)
    requires Safe(w)
    ensures Safe(AfterRegister(w, tag))
  {
    var after := AfterRegister(w, tag);
    forall i | 0 <= i < |after.rows|
      ensures RowOk(after, after.rows[i])
    {
      if i < |w.rows| {
        assert RowOk(w, w.rows[i]);
      }
    }
    forall k | k in after.holds
      ensures HoldOk(after, after.holds[k])
    {
      assert HoldOk(w, w.holds[k]);
    }
    forall t | t in after.sent
      ensures Tried(after, t)
    {
      var i :| TriedFor(w, i, t);
      assert TriedFor(after, i, t);
    }
    forall t
      ensures StartOk(after, t)
    {
      assert StartOk(w, t);
    }
  }

  /** A step of a target, or of time: rows, holds and what was sent stay. */
  lemma TargetStepKeepsSafe(w: World, e: Event)
    requires Safe(w) && (e.Tick? || e.Deliver? || e.Move?)
    ensures Safe(Step(w, e))
  {
    var after := Step(w, e);
    forall i | 0 <= i < |after.rows|
      ensures RowOk(after, after.rows[i])
    {
      assert RowOk(w, w.rows[i]);
    }
    forall k | k in after.holds
      ensures HoldOk(after, after.holds[k])
    {
      assert HoldOk(w, w.holds[k]);
    }
    forall t | t in after.sent
      ensures Tried(after, t)
    {
      var i :| TriedFor(w, i, t);
      assert TriedFor(after, i, t);
    }
    forall t
      ensures StartOk(after, t)
    {
      assert StartOk(w, t);
    }
  }

  lemma StepKeepsSafe(w: World, e: Event)
    requires Safe(w)
    ensures Safe(Step(w, e))
  {
    match e
    case Register(tag) => RegisterKeepsSafe(w, tag);
    case ResetStale => ResetKeepsSafe(w);
    case Reconcile => ReconcileKeepsSafe(w);
    case Send(worker) => SendKeepsSafe(w, worker);
    case Tick(d) => TargetStepKeepsSafe(w, e);
    case Deliver(t) => TargetStepKeepsSafe(w, e);
    case Move(t, work) => TargetStepKeepsSafe(w, e);
    case Claim(worker, i) => ClaimKeepsSafe(w, worker, i);
    case Record(worker) => RecordKeepsSafe(w, worker);
    case Fail(worker) => FailKeepsSafe(w, worker);
    case Die(worker) => DieKeepsSafe(w, worker);
  }

  lemma {:induction false} RunIsSafe(start: int, events: seq<Event>)
    ensures Safe(Run(Fresh(start), events))
    decreases |events|
  {
    if events != [] {
      var init := events[..|events| - 1];
      RunIsSafe(start, init);
      StepKeepsSafe(Run(Fresh(start), init), events[|events| - 1]);
    } else {
      forall t
        ensures StartOk(Fresh(start), t)
      {
      }
    }
  }

  /** A whole dispatch pass is made of these steps. */
  lemma {:induction false} PassKeepsSafe(w: World, worker: nat, ids: seq<nat>, outcomes: map<nat, Sending>, n: nat)
    requires Safe(w) && n <= |ids|
    ensures Safe(AfterDispatches(w, worker, ids, outcomes, n))
  {
    if n > 0 {
      PassKeepsSafe(w, worker, ids, outcomes, n - 1);
      DispatchKeepsSafe(AfterDispatches(w, worker, ids, outcomes, n - 1), worker, ids[n - 1],
                        Outcome(outcomes, ids[n - 1]));
    }
  }

  lemma DispatchKeepsSafe(w: World, worker: nat, i: nat, outcome: Sending)
    requires Safe(w)
    ensures Safe(AfterDispatch(w, worker, i, outcome))
  {
    var claimed := AfterClaim(w, worker, i);
    ClaimKeepsSafe(w, worker, i);
    FailKeepsSafe(claimed, worker);
    SendKeepsSafe(claimed, worker);
    RecordKeepsSafe(AfterSend(claimed, worker), worker);
  }

  // ---- what follows ------------------------------------------------------------------------------------

  /** However often stages are registered, claims reset and messages delivered, each tag has one row. */
  lemma OneRowForEachStage(start: int, events: seq<Event>, i: nat, j: nat)
    ensures var rows := Run(Fresh(start), events).rows;
            i < |rows| && j < |rows| && rows[i].tag == rows[j].tag ==> i == j
  {
    RunIsSafe(start, events);
  }

  /** The body of a component or workflow run starts at most once, and only for a row that a dispatcher claimed. */
  lemma BodyStartsAtMostOnce(start: int, events: seq<Event>, t: Target)
    ensures var w := Run(Fresh(start), events);
            Starts(w, t) <= 1 && (Starts(w, t) == 1 ==> exists i :: TriedFor(w, i, t))
  {
    RunIsSafe(start, events);
    var w := Run(Fresh(start), events);
    assert StartOk(w, t);
    if t in w.sent {
      assert Tried(w, t);
    }
  }

  /** A row that is past dispatching had its target sent, or its target has left its first state. */
  lemma DispatchedMeansLaunched(start: int, events: seq<Event>, i: nat)
    ensures var w := Run(Fresh(start), events);
            i < |w.rows| && w.rows[i].status != Pending && w.rows[i].status != Dispatching ==>
            Launched(w, w.rows[i].tag.target)
  {
    RunIsSafe(start, events);
    var w := Run(Fresh(start), events);
    if i < |w.rows| {
      assert RowOk(w, w.rows[i]);
    }
  }

  /** A claim whose dispatcher died does not strand its row: once stale, a reset makes it due at once. */
  lemma StaleClaimIsRetried(start: int, events: seq<Event>, i: nat, wait: nat)
    requires var w := Run(Fresh(start), events); i < |w.rows| && w.rows[i].status == Dispatching && wait > STALE_AFTER
    ensures var w := Run(Fresh(start), events);
            var after := Step(Step(w, Tick(wait)), ResetStale);
            DueAt(after.rows[i], after.now) && after.rows[i].tag == w.rows[i].tag
  {
    RunIsSafe(start, events);
    var w := Run(Fresh(start), events);
    assert RowOk(w, w.rows[i]);
    ResetRowsAt(w.rows, w.now + wait, |w.rows|, i);
  }

  /** A pass leaves a due row out only for the limit, and then for older rows. */
  lemma {:induction false} OldestDueRowsFirst(rows: seq<Row>, now: int, limit: nat, n: nat, i: nat)
    requires i < n <= |rows| && DueAt(rows[i], now)
    ensures var ids := DueRows(rows, now, limit, n);
            i in ids || (|ids| == limit && forall j :: 0 <= j < |ids| ==> ids[j] < i)
  {
    if i < n - 1 {
      OldestDueRowsFirst(rows, now, limit, n - 1, i);
    }
  }

  lemma {:induction false} Power2IsMonotone(m: nat, n: nat)
    requires m <= n
    ensures 1 <= Power2(m) <= Power2(n)
  {
    if m < n {
      Power2IsMonotone(m, n - 1);
    } else if n > 0 {
      Power2IsMonotone(n - 1, n - 1);
    }
  }

  lemma RetryDelayIsMonotone(attempts: int, more: int)
    requires attempts <= more
    ensures 5 <= RetryDelay(attempts) <= RetryDelay(more) <= 300
  {
    Power2IsMonotone(0, Min(Max(attempts - 1, 0), 6));
    Power2IsMonotone(Min(Max(attempts - 1, 0), 6), Min(Max(more - 1, 0), 6));
  }

  /** After a failed send the row waits, and no claim is possible before its delay is over. */
  lemma FailedRowWaits(w: World, worker: nat, other: nat, wait: nat)
    requires Safe(w) && Holding(w, worker)
    ensures var i := w.holds[worker].row;
            var failed := AfterFail(w, worker);
            var later := Step(failed, Tick(wait));
            failed.rows[i].status == Pending
            && (AfterClaim(later, other, i) != later
                <==> other !in later.holds && wait >= RetryDelay(w.rows[i].attempts))
  {
    assert HoldOk(w, w.holds[worker]);
  }

  /**
   Reconciling makes every open row say what its target says, kind by kind, and leaves settled rows and those whose
   target has not left its first state; reconciling again changes nothing.  A late dispatcher may set a settled row
   back, and then this holds again after the next reconciliation.
   */
  lemma ReconcileAgreesWithTargets(w: World, i: nat)
    requires i < |w.rows|
    ensures var row := w.rows[i];
            Step(w, Reconcile).rows[i] ==
            if row.status == Succeeded || row.status == Failed || row.tag.target !in w.works then row else
              match (w.works[row.tag.target], row.tag.target.kind)
              case (Initial, _) => row
              case (Between, Sm4) => row.(status := Dispatched)
              case (Between, Recovery) => row.(status := Running)
              case (Between, _) => row
              case (Working, _) => row.(status := Running)
              case (Done, _) => row.(status := Succeeded)
              case (Broken, _) => row.(status := Failed)
    ensures Step(Step(w, Reconcile), Reconcile) == Step(w, Reconcile)
  {
    ReconcileRowsAt(w.rows, w.works, |w.rows|, i);
    var once, twice := Step(w, Reconcile).rows, Step(Step(w, Reconcile), Reconcile).rows;
    forall j | 0 <= j < |w.rows|
      ensures twice[j] == once[j]
    {
      ReconcileRowsAt(w.rows, w.works, |w.rows|, j);
      ReconcileRowsAt(once, w.works, |once|, j);
    }
    assert twice == once;
  }

  /** The delay in seconds doubles from 5 with every attempt, up to five minutes. */
  lemma RetryDelays()
    ensures RetryDelay(1) == 5 && RetryDelay(2) == 10 && RetryDelay(3) == 20 && RetryDelay(4) == 40
    ensures RetryDelay(5) == 80 && RetryDelay(6) == 160
    ensures forall n :: n >= 7 ==> RetryDelay(n) == 300
    ensures forall n :: n <= 1 ==> RetryDelay(n) == 5
  {
    assert Power2(3) == 8 && Power2(6) == 8 * Power2(3);
  }
}
