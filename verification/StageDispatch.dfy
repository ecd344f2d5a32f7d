/**
 The outbox that carries committed batch stages to the workers.

 A stage registers one row for its target; dispatchers claim rows by
 compare-and-set, hand the target to the broker at least once, and record that
 they did; consumers claim their run by compare-and-set again.  Any number of
 dispatchers interleave, may be slow enough for their claim to be reset, fail, or
 die, and the broker may deliver a message any number of times.
 */
module StageDispatch {
  import opened Basics

  datatype Kind = Recovery | Component | Workflow | Sm4

  datatype Target = Target(kind: Kind, id: nat)

  datatype Stage = Restore | Sync | Standardize | Encrypt

  /** What the idempotency key of a row spells out. */
  datatype Tag = Tag(batch: nat, stage: Stage, target: Target)

  datatype Status = Pending | Dispatching | Dispatched | Running | Succeeded | Failed

  datatype Row = Row(tag: Tag, status: Status, attempts: nat, lastAttempt: Option<int>, nextAttempt: Option<int>)

  /** `Between` stands for the states a recovery task or an SM4 job has between its first state and its run. */
  datatype Work = Initial | Between | Working | Done | Broken

  /** A dispatcher between its claim and its last commit for that row. */
  datatype Hold = Hold(row: nat, sent: bool)

  /**
   `sent` holds the targets handed to the broker and `starts` how often the body of a run was
   entered; both are history that no dispatcher reads.  Times are seconds.
   */
  datatype World = World(rows: seq<Row>, works: map<Target, Work>, holds: map<nat, Hold>, sent: set<Target>,
                         starts: map<Target, nat>, now: int)

  const STALE_AFTER := 120

  const DEFER_SECONDS := 30

  // ---- one row -------------------------------------------------------------------------------------

  function Power2(n: nat): nat { if n == 0 then 1 else 2 * Power2(n - 1) }

  function RetryDelay(attempts: int): int {
    Min(300, 5 * Power2(Min(Max(attempts - 1, 0), 6)))
  }

  function Claimed(row: Row, now: int): Row {
    row.(status := Dispatching, attempts := row.attempts + 1, lastAttempt := Some(now), nextAttempt := None)
  }

  function Retried(row: Row, now: int): Row {
    row.(status := Pending, nextAttempt := Some(now + RetryDelay(if row.attempts == 0 then 1 else row.attempts)))
  }

  predicate DueAt(row: Row, now: int) {
    row.status == Pending && (row.nextAttempt.None? || row.nextAttempt.value <= now)
  }

  predicate Stale(row: Row, now: int) {
    row.status == Dispatching && row.lastAttempt.Some? && row.lastAttempt.value < now - STALE_AFTER
  }

  function ResetRow(row: Row, now: int): Row {
    if Stale(row, now) then row.(status := Pending, nextAttempt := Some(now)) else row
  }

  function WorkOf(works: map<Target, Work>, t: Target): Work {
    if t in works then works[t] else Initial
  }

  /** What the state of its target says about a row, if anything. */
  function TargetState(works: map<Target, Work>, t: Target): Option<Status> {
    match WorkOf(works, t)
    case Initial => None
    case Between => (match t.kind case Sm4 => Some(Dispatched) case Recovery => Some(Running) case _ => None)
    case Working => Some(Running)
    case Done => Some(Succeeded)
    case Broken => Some(Failed)
  }

  function ReconciledRow(row: Row, works: map<Target, Work>): Row {
    var state := TargetState(works, row.tag.target);
    if row.status == Succeeded || row.status == Failed || state.None? then row else row.(status := state.value)
  }

  /** A dispatcher that got through records its row: an SM4 job tells by itself whether it was taken. */
  function RecordedRow(row: Row, works: map<Target, Work>, now: int): Row {
    if row.tag.target.kind != Sm4 then row.(status := Dispatched) else
      var state := TargetState(works, row.tag.target);
      if state.Some? then row.(status := state.value)
        else row.(status := Pending, nextAttempt := Some(now + DEFER_SECONDS))
  }

  function ResetRows(rows: seq<Row>, now: int, n: nat): (r: seq<Row>)
    requires n <= |rows|
    ensures |r| == |rows|
  {
    if n == 0 then rows else ResetRows(rows, now, n - 1)[n - 1 := ResetRow(rows[n - 1], now)]
  }

  function ReconcileRows(rows: seq<Row>, works: map<Target, Work>, n: nat): (r: seq<Row>)
    requires n <= |rows|
    ensures |r| == |rows|
  {
    if n == 0 then rows else ReconcileRows(rows, works, n - 1)[n - 1 := ReconciledRow(rows[n - 1], works)]
  }

  // ---- the system ------------------------------------------------------------------------------------

  datatype Event =
    | Tick(seconds: nat)
    | Register(tag: Tag)
    | ResetStale
    | Reconcile
    | Claim(worker: nat, row: nat)
    | Send(worker: nat)
    | Record(worker: nat)
    | Fail(worker: nat)
    | Die(worker: nat)
    | Deliver(target: Target)
    | Move(target: Target, work: Work)

  predicate Registered(rows: seq<Row>, tag: Tag) {
    exists i :: 0 <= i < |rows| && rows[i].tag == tag
  }

  function AfterRegister(w: World, tag: Tag): World {
    if Registered(w.rows, tag) then w
    else w.(rows := w.rows + [Row(tag, Pending, 0, None, None)],
            works := if tag.target in w.works then w.works else w.works[tag.target := Initial])
  }

  function AfterClaim(w: World, worker: nat, i: nat): World {
    if worker in w.holds || i >= |w.rows| || !DueAt(w.rows[i], w.now) then w
    else w.(rows := w.rows[i := Claimed(w.rows[i], w.now)], holds := w.holds[worker := Hold(i, false)])
  }

  predicate Holding(w: World, worker: nat) {
    worker in w.holds && w.holds[worker].row < |w.rows|
  }

  function AfterSend(w: World, worker: nat): World {
    if Holding(w, worker) && w.rows[w.holds[worker].row].tag.target.kind != Sm4 then
      w.(sent := w.sent + {w.rows[w.holds[worker].row].tag.target},
         holds := w.holds[worker := w.holds[worker].(sent := true)])
    else w
  }

  function AfterRecord(w: World, worker: nat): World {
    if !Holding(w, worker) then w else
      var i := w.holds[worker].row;
      if w.rows[i].tag.target.kind != Sm4 && !w.holds[worker].sent then w
      else w.(rows := w.rows[i := RecordedRow(w.rows[i], w.works, w.now)], holds := w.holds - {worker})
  }

  function AfterFail(w: World, worker: nat): World {
    if !Holding(w, worker) then w else
      var i := w.holds[worker].row;
      w.(rows := w.rows[i := Retried(w.rows[i], w.now)], holds := w.holds - {worker})
  }

  /** The consumers of component and workflow runs enter their body only by the compare-and-set on the initial state. */
  predicate ClaimsItsRun(kind: Kind) {
    kind == Component || kind == Workflow
  }

  function Starts(w: World, t: Target): nat {
    if t in w.starts then w.starts[t] else 0
  }

  function AfterDeliver(w: World, t: Target): World {
    if t in w.sent && t in w.works && ClaimsItsRun(t.kind) && w.works[t] == Initial
    then w.(works := w.works[t := Working], starts := w.starts[t := Starts(w, t) + 1])
    else w
  }

  /** Everything else that moves a target: no step returns to the initial state, or runs a body unclaimed. */
  function AfterMove(w: World, t: Target, work: Work): World {
    if t !in w.works || work == Initial || (ClaimsItsRun(t.kind) && work != Done && work != Broken) then w
    else w.(works := w.works[t := work])
  }

  function Step(w: World, e: Event): World {
    match e
    case Tick(d) => w.(now := w.now + d)
    case Register(tag) => AfterRegister(w, tag)
    case ResetStale => w.(rows := ResetRows(w.rows, w.now, |w.rows|))
    case Reconcile => w.(rows := ReconcileRows(w.rows, w.works, |w.rows|))
    case Claim(worker, i) => AfterClaim(w, worker, i)
    case Send(worker) => AfterSend(w, worker)
    case Record(worker) => AfterRecord(w, worker)
    case Fail(worker) => AfterFail(w, worker)
    case Die(worker) => w.(holds := w.holds - {worker})
    case Deliver(t) => AfterDeliver(w, t)
    case Move(t, work) => AfterMove(w, t, work)
  }

  function Run(w: World, events: seq<Event>): World
    decreases |events|
  {
    if events == [] then w else Step(Run(w, events[..|events| - 1]), events[|events| - 1])
  }

  function Fresh(start: int): World {
    World([], map[], map[], {}, map[], start)
  }

  // ---- a dispatch pass -----------------------------------------------------------------------------------

  /** Whether handing over a row's target raises. */
  datatype Sending = Taken | Refused

  function Outcome(outcomes: map<nat, Sending>, i: nat): Sending {
    if i in outcomes then outcomes[i] else Taken
  }

  function AfterHandOver(claimed: World, worker: nat, outcome: Sending): World {
    if outcome == Refused then AfterFail(claimed, worker) else AfterRecord(AfterSend(claimed, worker), worker)
  }

  /** One row of a dispatch pass by a dispatcher that nobody interrupts. */
  function AfterDispatch(w: World, worker: nat, i: nat, outcome: Sending): World {
    if worker in w.holds || i >= |w.rows| || !DueAt(w.rows[i], w.now) then w else
      AfterHandOver(AfterClaim(w, worker, i), worker, outcome)
  }

  function AfterDispatches(w: World, worker: nat, ids: seq<nat>, outcomes: map<nat, Sending>, n: nat): World
    requires n <= |ids|
  {
    if n == 0 then w
    else AfterDispatch(AfterDispatches(w, worker, ids, outcomes, n - 1), worker, ids[n - 1],
                       Outcome(outcomes, ids[n - 1]))
  }

  /** The first `limit` due rows among the first `n`, oldest first. */
  function DueRows(rows: seq<Row>, now: int, limit: nat, n: nat): (ids: seq<nat>)
    requires n <= |rows|
    ensures |ids| <= limit && forall j :: 0 <= j < |ids| ==> ids[j] < n && DueAt(rows[ids[j]], now)
  {
    if n == 0 then [] else
      var ids := DueRows(rows, now, limit, n - 1);
      if |ids| < limit && DueAt(rows[n - 1], now) then ids + [n - 1] else ids
  }
}
