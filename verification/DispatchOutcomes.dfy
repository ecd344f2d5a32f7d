/**
 What becomes of one row of the outbox: registered, claimed, handed over, refused, left behind, delivered.
 */
module DispatchOutcomes {
  import opened Basics
  import opened StageDispatch
  import opened DispatchSafety

  /** A stage is registered once, as a row that is due at once for a target that has not begun. */
  lemma RegisteredOnce(w: World, tag: Tag)
    ensures (exists i :: 0 <= i < |w.rows| && w.rows[i].tag == tag) ==> Step(w, Register(tag)) == w
    ensures (forall i :: 0 <= i < |w.rows| ==> w.rows[i].tag != tag) ==>
              Step(w, Register(tag)) == w.(rows := w.rows + [Row(tag, Pending, 0, None, None)],
                works := if tag.target in w.works then w.works else w.works[tag.target := Initial])
  {
  }

  predicate CanBeClaimed(w: World, worker: nat, i: nat) {
    worker !in w.holds && i < |w.rows| && w.rows[i].status == Pending
    && (w.rows[i].nextAttempt.None? || w.rows[i].nextAttempt.value <= w.now)
  }

  /** A claim counts the attempt and its time, and tells nobody else's row; where it cannot be had nothing changes. */
  lemma ClaimIsCounted(w: World, worker: nat, i: nat)
    ensures Step(w, Claim(worker, i)) ==
            if CanBeClaimed(w, worker, i) then
              w.(rows := w.rows[i := Row(w.rows[i].tag, Dispatching, w.rows[i].attempts + 1, Some(w.now), None)],
                 holds := w.holds[worker := Hold(i, false)])
            else w
  {
  }

  /** Handed over undisturbed, any row but one of an SM4 job is dispatched, and its target sent. */
  lemma SentRowIsDispatched(w: World, worker: nat, i: nat)
    requires CanBeClaimed(w, worker, i) && w.rows[i].tag.target.kind != Sm4
    ensures var after := Step(Step(Step(w, Claim(worker, i)), Send(worker)), Record(worker));
            after.rows == w.rows[i := Row(w.rows[i].tag, Dispatched, w.rows[i].attempts + 1, Some(w.now), None)]
            && after.sent == w.sent + {w.rows[i].tag.target} && after.holds == w.holds
            && after.works == w.works && after.starts == w.starts && after.now == w.now
  {
    var claimed := Step(w, Claim(worker, i));
    var sent := Step(claimed, Send(worker));
    assert sent.holds[worker] == Hold(i, true) && sent.rows == claimed.rows;
    assert w.holds[worker := Hold(i, true)] - {worker} == w.holds;
  }

  /** The row of an SM4 job takes over what the job says, and waits half a minute if that is nothing yet. */
  lemma JobRowTakesOver(w: World, worker: nat, i: nat)
    requires CanBeClaimed(w, worker, i) && w.rows[i].tag.target.kind == Sm4 && w.rows[i].tag.target in w.works
    ensures var after := Step(Step(Step(w, Claim(worker, i)), Send(worker)), Record(worker));
            after.sent == w.sent && after.holds == w.holds && |after.rows| == |w.rows|
            && after.rows[i] ==
               match w.works[w.rows[i].tag.target]
               case Initial => Row(w.rows[i].tag, Pending, w.rows[i].attempts + 1, Some(w.now), Some(w.now + 30))
               case Between => Row(w.rows[i].tag, Dispatched, w.rows[i].attempts + 1, Some(w.now), None)
               case Working => Row(w.rows[i].tag, Running, w.rows[i].attempts + 1, Some(w.now), None)
               case Done => Row(w.rows[i].tag, Succeeded, w.rows[i].attempts + 1, Some(w.now), None)
               case Broken => Row(w.rows[i].tag, Failed, w.rows[i].attempts + 1, Some(w.now), None)
  {
    var claimed := Step(w, Claim(worker, i));
    assert Step(claimed, Send(worker)) == claimed;
    assert w.holds[worker := Hold(i, false)] - {worker} == w.holds;
  }

  /** Without having sent its target no dispatcher records a dispatch. */
  lemma NothingIsRecordedUnsent(w: World, worker: nat)
    requires worker in w.holds && w.holds[worker].row < |w.rows| && !w.holds[worker].sent
    requires w.rows[w.holds[worker].row].tag.target.kind != Sm4
    ensures Step(w, Record(worker)) == w
  {
  }

  /** Refused by the broker, a row is due again after the delay for this attempt. */
  lemma RefusedRowWaits(w: World, worker: nat, i: nat)
    requires CanBeClaimed(w, worker, i)
    ensures var after := Step(Step(w, Claim(worker, i)), Fail(worker));
            after == w.(rows := w.rows[i := Row(w.rows[i].tag, Pending, w.rows[i].attempts + 1, Some(w.now),
                                                Some(w.now + RetryDelay(w.rows[i].attempts + 1)))])
  {
    assert w.holds[worker := Hold(i, false)] - {worker} == w.holds;
  }

  /** A claim older than two minutes is given back and due at once; any other row stays. */
  lemma StaleClaimIsGivenBack(w: World, i: nat)
    requires i < |w.rows|
    ensures Step(w, ResetStale).rows[i] ==
            if w.rows[i].status == Dispatching && w.rows[i].lastAttempt.Some?
              && w.now - w.rows[i].lastAttempt.value > 120
            then w.rows[i].(status := Pending, nextAttempt := Some(w.now)) else w.rows[i]
  {
    ResetRowsAt(w.rows, w.now, |w.rows|, i);
  }

  /** A message starts the body of a component or workflow run that has not begun, and nothing else. */
  lemma DeliveryStartsOnce(w: World, t: Target)
    ensures Step(w, Deliver(t)) ==
            if t in w.sent && t in w.works && w.works[t] == Initial && (t.kind == Component || t.kind == Workflow)
            then w.(works := w.works[t := Working],
                    starts := w.starts[t := (if t in w.starts then w.starts[t] else 0) + 1])
            else w
  {
  }

  /** Such a run otherwise only ends; a recovery or an SM4 job moves as it will, but never back to its beginning. */
  lemma OthersOnlyEndARun(w: World, t: Target, work: Work)
    requires t in w.works
    ensures Step(w, Move(t, work)) ==
            if work == Initial || ((t.kind == Component || t.kind == Workflow) && (work == Between || work == Working))
            then w else w.(works := w.works[t := work])
  {
  }

  // ---- a pass ----------------------------------------------------------------------------------------

  /** A dispatcher that nobody interrupts claims a row, and then sends and records it, or is refused. */
  lemma UninterruptedIsThreeSteps(w: World, worker: nat, i: nat, outcome: Sending)
    ensures AfterDispatch(w, worker, i, outcome) ==
            if !CanBeClaimed(w, worker, i) then w
            else if outcome == Taken then Step(Step(Step(w, Claim(worker, i)), Send(worker)), Record(worker))
            else Step(Step(w, Claim(worker, i)), Fail(worker))
  {
  }

  /** What a pass makes of a row it selects: dispatched if the broker takes it, due later if it does not. */
  function Passed(w: World, i: nat, taken: bool): Row
    requires i < |w.rows|
  {
    var row := w.rows[i];
    if taken then Row(row.tag, Dispatched, row.attempts + 1, Some(w.now), None)
    else Row(row.tag, Pending, row.attempts + 1, Some(w.now), Some(w.now + RetryDelay(row.attempts + 1)))
  }

  lemma OneOfAPass(w: World, worker: nat, i: nat, outcome: Sending)
    requires CanBeClaimed(w, worker, i) && w.rows[i].tag.target.kind != Sm4
    ensures var after := AfterDispatch(w, worker, i, outcome);
            after.rows == w.rows[i := Passed(w, i, outcome == Taken)] && after.holds == w.holds && after.now == w.now
            && (outcome == Taken ==> w.rows[i].tag.target in after.sent) && w.sent <= after.sent
  {
    UninterruptedIsThreeSteps(w, worker, i, outcome);
    SentRowIsDispatched(w, worker, i);
    RefusedRowWaits(w, worker, i);
  }

  predicate AllClaimable(w: World, worker: nat, ids: seq<nat>) {
    (forall j :: 0 <= j < |ids| ==> CanBeClaimed(w, worker, ids[j]) && w.rows[ids[j]].tag.target.kind != Sm4)
    && forall j, k :: 0 <= j < k < |ids| ==> ids[j] != ids[k]
  }

  predicate Taking(outcomes: map<nat, Sending>, i: nat) {
    i in outcomes ==> outcomes[i] == Taken
  }

  /**
   The first `n` rows of a pass are handed over, the targets of those that were taken are sent, and no other
   row moved.
   */
  predicate PassedTo(w: World, after: World, ids: seq<nat>, outcomes: map<nat, Sending>, n: nat)
    requires n <= |ids|
  {
    |after.rows| == |w.rows| && after.holds == w.holds && after.now == w.now && w.sent <= after.sent
    && (forall j :: 0 <= j < n && ids[j] < |w.rows| ==>
          after.rows[ids[j]] == Passed(w, ids[j], Taking(outcomes, ids[j]))
          && (Taking(outcomes, ids[j]) ==> w.rows[ids[j]].tag.target in after.sent))
    && (forall i :: 0 <= i < |w.rows| && i !in ids[..n] ==> after.rows[i] == w.rows[i])
  }

  lemma PassedOneMore(w: World, mid: World, after: World, ids: seq<nat>, outcomes: map<nat, Sending>, n: nat)
    requires 0 < n <= |ids| && PassedTo(w, mid, ids, outcomes, n - 1) && ids[n - 1] < |w.rows|
    requires forall j :: 0 <= j < n - 1 ==> ids[j] != ids[n - 1]
    requires after.rows == mid.rows[ids[n - 1] := Passed(w, ids[n - 1], Taking(outcomes, ids[n - 1]))]
    requires after.holds == mid.holds && after.now == mid.now && mid.sent <= after.sent
    requires Taking(outcomes, ids[n - 1]) ==> w.rows[ids[n - 1]].tag.target in after.sent
    ensures PassedTo(w, after, ids, outcomes, n)
  {
    assert ids[..n] == ids[..n - 1] + [ids[n - 1]];
  }

  lemma NextIsClaimable(w: World, worker: nat, mid: World, ids: seq<nat>, outcomes: map<nat, Sending>, n: nat)
    requires 0 < n <= |ids| && AllClaimable(w, worker, ids) && PassedTo(w, mid, ids, outcomes, n - 1)
    ensures ids[n - 1] < |w.rows| && mid.rows[ids[n - 1]] == w.rows[ids[n - 1]] && CanBeClaimed(mid, worker, ids[n - 1])
    ensures w.rows[ids[n - 1]].tag.target.kind != Sm4 && forall j :: 0 <= j < n - 1 ==> ids[j] != ids[n - 1]
  {
    assert CanBeClaimed(w, worker, ids[n - 1]);
    assert ids[n - 1] !in ids[..n - 1];
  }

  lemma PassOneMore(w: World, worker: nat, mid: World, ids: seq<nat>, outcomes: map<nat, Sending>, n: nat)
    requires 0 < n <= |ids| && AllClaimable(w, worker, ids) && PassedTo(w, mid, ids, outcomes, n - 1)
    ensures PassedTo(w, AfterDispatch(mid, worker, ids[n - 1], Outcome(outcomes, ids[n - 1])), ids, outcomes, n)
  {
    var i := ids[n - 1];
    NextIsClaimable(w, worker, mid, ids, outcomes, n);
    OneOfAPass(mid, worker, i, Outcome(outcomes, i));
    assert Outcome(outcomes, i) == Taken <==> Taking(outcomes, i);
    PassedOneMore(w, mid, AfterDispatch(mid, worker, i, Outcome(outcomes, i)), ids, outcomes, n);
  }

  /** So a pass hands over each row it selected, once, with what the broker said to it, and touches no other row. */
  lemma {:induction false} PassHandsOverEach(w: World, worker: nat, ids: seq<nat>, outcomes: map<nat, Sending>, n: nat)
    requires n <= |ids| && AllClaimable(w, worker, ids)
    ensures PassedTo(w, AfterDispatches(w, worker, ids, outcomes, n), ids, outcomes, n)
  {
    if n > 0 {
      PassHandsOverEach(w, worker, ids, outcomes, n - 1);
      PassOneMore(w, worker, AfterDispatches(w, worker, ids, outcomes, n - 1), ids, outcomes, n);
    }
  }

  predicate Increasing(ids: seq<nat>) {
    forall j, k :: 0 <= j < k < |ids| ==> ids[j] < ids[k]
  }

  /** The rows a pass selects are due, each named once and the older before the younger. */
  lemma {:induction false} DueRowsIncrease(rows: seq<Row>, now: int, limit: nat, n: nat)
    requires n <= |rows|
    ensures Increasing(DueRows(rows, now, limit, n))
  {
    if n > 0 {
      DueRowsIncrease(rows, now, limit, n - 1);
    }
  }
}
