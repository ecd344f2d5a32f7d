/**
 Data change triggers: probing, debouncing, dispatching a workflow run, and
 moving the watermark when the run that owns the change has succeeded.

 `TriggerRow` updates a row in place as the service does; each method is proved
 against a function on the row's value.  The system around a row (run records,
 dispatches still in flight) is a state machine over those functions.
 */
module ChangeTrigger {
  import opened Basics
  import opened Graphs

  /** A reading of the monitored source; the trigger only ever compares readings for equality. */
  datatype Reading = Reading(content: int)

  type RunId = nat

  datatype Overlap = Merge | Queue | SkipNew

  datatype FirstRun = BaselineOnly | ManualConfirm | RunAtOnce

  /** Times are seconds; `window` holds the first and last minute of the day when the window is enabled. */
  datatype Config = Config(overlap: Overlap, first: FirstRun, consecutive: int, minimumMinutes: int,
                           window: Option<(int, int)>, probeMinutes: int, retryMinutes: int)

  datatype RowState =
    | Active | Paused | Retired | ProbeFailed | Dispatching | RunningRun
    | PendingRetry | PendingWindow | PendingDebounce | WaitingBaseline

  datatype Row = Row(enabled: bool, state: RowState, applied: Option<Reading>, pending: Option<Reading>,
                     queue: seq<Reading>, observed: Option<Reading>, runId: Option<RunId>, matches: int,
                     lastTrigger: Option<int>, nextProbe: Option<int>)

  datatype RunStatus = Queued | Running | Succeeded | Failed

  datatype RunRecord = RunRecord(status: RunStatus, reading: Reading)

  const QUEUE_LIMIT := 100

  // ---- configuration values ------------------------------------------------------------

  function OrDefault(x: int, default: int): int { if x == 0 then default else x }

  function ProbeSeconds(c: Config): int { 60 * Max(1, Min(1440, OrDefault(c.probeMinutes, 5))) }

  function RetrySeconds(c: Config): int { 60 * Max(1, OrDefault(c.retryMinutes, 5)) }

  function DebounceSeconds(c: Config): int { 60 * Max(0, c.minimumMinutes) }

  predicate InsideWindow(c: Config, now: int) {
    c.window.Some? ==>
      var minute := now / 60 % 1440;
      var (start, end) := c.window.value;
      if start <= end then start <= minute <= end else minute >= start || minute <= end
  }

  predicate WithinDebounce(c: Config, row: Row, now: int) {
    row.lastTrigger.Some? && now < row.lastTrigger.value + DebounceSeconds(c)
  }

  function LastEntries(queue: seq<Reading>): seq<Reading> {
    if |queue| <= QUEUE_LIMIT then queue else queue[|queue| - QUEUE_LIMIT..]
  }

  // ---- what each operation makes of a row ------------------------------------------------

  /** A finished run settles its change, if the row still names it as its own. */
  function Finalized(c: Config, row: Row, id: RunId, run: RunRecord, now: int): Row {
    if row.runId != Some(id) then row
    else if run.status == Succeeded then
      var settled := row.pending == Some(run.reading);
      var left := if settled then None else row.pending;
      var pops := left.None? && row.queue != [];
      var pending := if pops then Some(row.queue[0]) else left;
      row.(applied := Some(run.reading), pending := pending,
           queue := if pops then row.queue[1..] else row.queue, runId := None,
           state := if !row.enabled then Paused else if pending.None? then Active else PendingRetry,
           nextProbe := if !row.enabled then None else if pops || !settled then Some(now) else row.nextProbe)
    else
      row.(runId := None, state := if row.enabled then PendingRetry else Paused,
           nextProbe := if row.enabled then Some(now + RetrySeconds(c)) else None)
  }

  predicate IsLive(run: RunRecord) {
    run.status == Queued || run.status == Running
  }

  function Reconciled(c: Config, row: Row, runs: map<RunId, RunRecord>, now: int): Row {
    if row.runId.None? then row
    else if row.runId.value !in runs then row.(runId := None, state := PendingRetry)
    else if IsLive(runs[row.runId.value]) then row
    else Finalized(c, row, row.runId.value, runs[row.runId.value], now)
  }

  /** What a probe did beyond the row: a dispatch to carry out, and the change it confirmed. */
  datatype Probed = Probed(row: Row, request: Option<Reading>, confirmed: Option<Reading>)

  function Retire(row: Row): Row {
    row.(enabled := false, state := Retired, nextProbe := None)
  }

  function AfterProbe(c: Config, was: Row, runs: map<RunId, RunRecord>, now: int, manual: bool, missing: bool,
                      current: Reading, matched: bool, newId: RunId): Probed
  {
    if (!was.enabled || was.state == Retired || missing) && !manual then Probed(Retire(was), None, None)
    else if was.state == Dispatching then Probed(was, None, None)
    else Judged(c, Seen(c, Reconciled(c, was, runs, now), now, current, matched), now, current, matched, newId)
  }

  function Seen(c: Config, row: Row, now: int, current: Reading, matched: bool): Row {
    row.(observed := Some(current), nextProbe := Some(now + ProbeSeconds(c)),
         matches := if matched then row.matches + 1 else 0)
  }

  /** The first run, and a change still waiting for a run, count as confirmed without a fresh match. */
  function Judged(c: Config, row: Row, now: int, current: Reading, matched: bool, newId: RunId): Probed {
    if row.applied.None? && c.first == BaselineOnly then
      Probed(row.(applied := Some(current), state := Active), None, Some(current))
    else if row.applied.None? && c.first == ManualConfirm then
      Probed(row.(state := WaitingBaseline), None, None)
    else
      var forced := row.applied.None? || (row.pending.Some? && row.runId.None?);
      var counted := if forced then row.(matches := Max(row.matches, OrDefault(c.consecutive, 1))) else row;
      if (matched || forced) && counted.matches >= Max(1, OrDefault(c.consecutive, 1))
      then Confirmed(c, counted, now, current, newId)
      else Probed(counted, None, None)
  }

  /** A confirmed change joins the run in flight, waits, or is dispatched. */
  function Confirmed(c: Config, row: Row, now: int, current: Reading, newId: RunId): Probed {
    if row.runId.Some? then
      match c.overlap
      case SkipNew => Probed(row, None, Some(current))
      case Queue =>
        Probed(row.(queue := LastEntries(if current in row.queue then row.queue else row.queue + [current])), None,
               Some(current))
      case Merge => Probed(row.(pending := Some(current)), None, Some(current))
    else if !InsideWindow(c, now) then
      Probed(row.(pending := Some(current), state := PendingWindow), None, Some(current))
    else if WithinDebounce(c, row, now) then
      Probed(row.(pending := Some(current), state := PendingDebounce), None, Some(current))
    else
      Probed(row.(pending := Some(current), runId := Some(newId), lastTrigger := Some(now), state := Dispatching),
             Some(current), Some(current))
  }

  function AfterDispatchFailure(row: Row): Row {
    row.(runId := None, state := PendingRetry)
  }

  function AfterDispatch(row: Row, id: RunId, runs: map<RunId, RunRecord>): Row {
    if row.runId == Some(id) && id in runs && IsLive(runs[id]) then row.(state := RunningRun) else row
  }

  function AfterSwitch(row: Row, enabled: bool, now: int): Row {
    row.(enabled := enabled, state := if enabled then Active else Paused,
         nextProbe := if enabled then Some(now) else None)
  }

  /** A rebuild is refused, and nothing is kept of it, while a run is still owned after reconciling. */
  function AfterRebuild(c: Config, was: Row, runs: map<RunId, RunRecord>, now: int, current: Reading): Option<Row> {
    var row := Reconciled(c, was, runs, now);
    if row.runId.Some? then None else
      Some(row.(observed := Some(current), applied := Some(current), pending := None, queue := [], runId := None,
                matches := 0, nextProbe := Some(now + ProbeSeconds(c)), state := Active))
  }

  function AfterProbeFailure(c: Config, row: Row, missing: bool, now: int): Row {
    if !row.enabled || row.state == Retired || missing then Retire(row)
    else row.(state := ProbeFailed, nextProbe := Some(now + RetrySeconds(c)))
  }

  /** Publishing a version again: a retired trigger comes back, and an enabled one has a next probe. */
  function AfterRepublish(row: Row, now: int): Row {
    var back := if row.state == Retired then row.(enabled := true, state := Active) else row;
    back.(nextProbe := if !back.enabled then None else if back.nextProbe.Some? then back.nextProbe else Some(now))
  }

  // ---- the trigger among its runs --------------------------------------------------------------

  /**
   `planned` holds every run identifier a probe has handed out with the reading it was handed out for;
   a run is created only later, so a row may name a run that does not exist yet.  `confirmed` is the
   latest change (or baseline) that was accepted, and `dispatches` the times of all dispatches.
   */
  datatype System = System(row: Row, runs: map<RunId, RunRecord>, planned: map<RunId, Reading>,
                           confirmed: Option<Reading>, dispatches: seq<int>, now: int)

  datatype Event =
    | Tick(seconds: nat)
    | Probe(manual: bool, missing: bool, current: Reading, matched: bool, newId: RunId)
    | ProbeFails(missing: bool)
    | CreateRun(id: RunId)
    | StartRun(id: RunId)
    | FinishRun(id: RunId, success: bool)
    | LoseRun(id: RunId)
    | DispatchFails(id: RunId)
    | DispatchReturns(id: RunId)
    | Switch(on: bool)
    | Rebuild(current: Reading)
    | Unpublish
    | Republish

  function Fresh(now: int): System {
    System(Row(true, Active, None, None, [], None, None, 0, None, Some(now)), map[], map[], None, [], now)
  }

  /** One committed transaction; an event that cannot happen in this state changes nothing. */
  function Step(c: Config, s: System, e: Event): System {
    match e
    case Tick(d) => s.(now := s.now + d)
    case Probe(manual, missing, current, matched, newId) => StepProbe(c, s, manual, missing, current, matched, newId)
    case ProbeFails(missing) => s.(row := AfterProbeFailure(c, s.row, missing, s.now))
    case CreateRun(id) =>
      if id in s.planned && id !in s.runs then s.(runs := s.runs[id := RunRecord(Queued, s.planned[id])]) else s
    case StartRun(id) =>
      if id in s.runs && s.runs[id].status == Queued
      then s.(runs := s.runs[id := s.runs[id].(status := Running)]) else s
    case FinishRun(id, success) => if id in s.runs then StepFinish(c, s, id, success) else s
    case LoseRun(id) =>
      if id in s.runs && s.runs[id].status == Running
      then s.(runs := s.runs[id := s.runs[id].(status := Failed)]) else s
    case DispatchFails(id) => if id in s.planned then s.(row := AfterDispatchFailure(s.row)) else s
    case DispatchReturns(id) => s.(row := AfterDispatch(s.row, id, s.runs))
    case Switch(on) => s.(row := AfterSwitch(s.row, on, s.now))
    case Rebuild(current) => StepRebuild(c, s, current)
    case Unpublish => s.(row := Retire(s.row))
    case Republish => s.(row := AfterRepublish(s.row, s.now))
  }

  function StepProbe(c: Config, s: System, manual: bool, missing: bool, current: Reading, matched: bool,
                     newId: RunId): System {
    if newId in s.planned then s else
      var done := AfterProbe(c, s.row, s.runs, s.now, manual, missing, current, matched, newId);
      System(done.row, s.runs, if done.request.Some? then s.planned[newId := done.request.value] else s.planned,
             if done.confirmed.Some? then done.confirmed else s.confirmed,
             if done.request.Some? then s.dispatches + [s.now] else s.dispatches, s.now)
  }

  function StepFinish(c: Config, s: System, id: RunId, success: bool): System
    requires id in s.runs
  {
    var run := s.runs[id].(status := if success then Succeeded else Failed);
    s.(runs := s.runs[id := run], row := Finalized(c, s.row, id, run, s.now))
  }

  function StepRebuild(c: Config, s: System, current: Reading): System {
    var rebuilt := AfterRebuild(c, s.row, s.runs, s.now, current);
    if rebuilt.Some? then s.(row := rebuilt.value, confirmed := Some(current)) else s
  }

  function Run(c: Config, s: System, events: seq<Event>): System
    decreases |events|
  {
    if events == [] then s else Run(c, Step(c, s, events[0]), events[1..])
  }

  // ---- what every run keeps --------------------------------------------------------------------

  /** An owned run has a pending change, and so has a non-empty queue of pairwise distinct changes. */
  predicate RowOk(row: Row) {
    (row.runId.Some? ==> row.pending.Some?)
    && (row.queue != [] ==> row.pending.Some?)
    && Distinct(row.queue)
    && |row.queue| <= QUEUE_LIMIT
    && (row.enabled ==> row.nextProbe.Some?)
  }

  /** The latest confirmed change is applied with no run in flight, or is pending, or is queued. */
  predicate Kept(row: Row, confirmed: Option<Reading>) {
    confirmed.Some? ==>
      (row.runId.None? && row.applied == confirmed) || row.pending == confirmed || confirmed.value in row.queue
  }

  /** Before a baseline exists, a policy that only takes baselines has confirmed nothing. */
  predicate Unbased(c: Config, row: Row, confirmed: Option<Reading>) {
    row.applied.None? && c.first != RunAtOnce ==>
      row.pending.None? && row.runId.None? && row.queue == [] && confirmed.None?
  }

  predicate RunsOk(s: System) {
    (s.row.runId.Some? ==> s.row.runId.value in s.planned)
    && forall id :: id in s.runs ==> id in s.planned && s.runs[id].reading == s.planned[id]
  }

  predicate DispatchesOk(c: Config, s: System) {
    s.row.lastTrigger == (if s.dispatches == [] then None else Some(s.dispatches[|s.dispatches| - 1]))
    && Spaced(s.dispatches, DebounceSeconds(c))
  }

  predicate Spaced(times: seq<int>, gap: int) {
    forall i :: 0 < i < |times| ==> times[i] >= times[i - 1] + gap
  }

  predicate Good(c: Config, s: System) {
    RowGood(c, s.row, s.confirmed)
    && RunsOk(s)
    && DispatchesOk(c, s)
  }

  lemma QueueKeepsNewest(queue: seq<Reading>, current: Reading)
    requires Distinct(queue) && |queue| <= QUEUE_LIMIT
    ensures var kept := LastEntries(if current in queue then queue else queue + [current]);
            Distinct(kept) && 0 < |kept| <= QUEUE_LIMIT && current in kept
  {
    if current !in queue {
      var longer := queue + [current];
      var kept := LastEntries(longer);
      assert kept[|kept| - 1] == current;
    }
  }

  lemma TailKeeps(queue: seq<Reading>, v: Reading)
    requires queue != [] && Distinct(queue)
    ensures Distinct(queue[1..]) && (v in queue ==> v == queue[0] || v in queue[1..])
  {
    forall i, j | 0 <= i < j < |queue[1..]|
      ensures queue[1..][i] != queue[1..][j]
    {
      assert queue[1..][i] == queue[i + 1] && queue[1..][j] == queue[j + 1];
    }
    if v in queue {
      var k :| 0 <= k < |queue| && queue[k] == v;
      if k > 0 {
        assert queue[1..][k - 1] == v;
      }
    }
  }

  lemma FinalizedKeeps(c: Config, row: Row, id: RunId, run: RunRecord, now: int, confirmed: Option<Reading>)
    requires RowOk(row)
    ensures RowOk(Finalized(c, row, id, run, now))
    ensures Kept(row, confirmed) ==> Kept(Finalized(c, row, id, run, now), confirmed)
    ensures Unbased(c, row, confirmed) ==> Unbased(c, Finalized(c, row, id, run, now), confirmed)
  {
    var after := Finalized(c, row, id, run, now);
    if row.runId == Some(id) && row.queue != [] {
      TailKeeps(row.queue, if confirmed.Some? then confirmed.value else row.queue[0]);
      assert after.queue == row.queue || after.queue == row.queue[1..];
    }
  }

  lemma ReconciledKeeps(c: Config, row: Row, runs: map<RunId, RunRecord>, now: int, confirmed: Option<Reading>)
    requires RowOk(row)
    ensures RowOk(Reconciled(c, row, runs, now))
    ensures Kept(row, confirmed) ==> Kept(Reconciled(c, row, runs, now), confirmed)
    ensures Unbased(c, row, confirmed) ==> Unbased(c, Reconciled(c, row, runs, now), confirmed)
  {
    if row.runId.Some? && row.runId.value in runs {
      FinalizedKeeps(c, row, row.runId.value, runs[row.runId.value], now, confirmed);
    }
  }

  lemma ConfirmedKeeps(c: Config, row: Row, now: int, current: Reading, newId: RunId)
    requires RowOk(row)
    ensures var done := Confirmed(c, row, now, current, newId);
            RowOk(done.row) && done.confirmed == Some(current)
            && (c.overlap != SkipNew ==> Kept(done.row, done.confirmed))
  {
    if row.runId.Some? && c.overlap == Queue {
      QueueKeepsNewest(row.queue, current);
    } else {
      assert Confirmed(c, row, now, current, newId).row.queue == row.queue;
    }
  }

  /** What holds of the row and the latest confirmed change after every step. */
  predicate RowGood(c: Config, row: Row, confirmed: Option<Reading>) {
    RowOk(row) && Unbased(c, row, confirmed) && (c.overlap != SkipNew ==> Kept(row, confirmed))
  }

  function Latest(done: Probed, confirmed: Option<Reading>): Option<Reading> {
    if done.confirmed.Some? then done.confirmed else confirmed
  }

  lemma JudgedKeeps(c: Config, row: Row, now: int, current: Reading, matched: bool, newId: RunId,
                    confirmed: Option<Reading>)
    requires RowGood(c, row, confirmed)
    ensures var done := Judged(c, row, now, current, matched, newId); RowGood(c, done.row, Latest(done, confirmed))
  {
    var forced := row.applied.None? || (row.pending.Some? && row.runId.None?);
    var counted := if forced then row.(matches := Max(row.matches, OrDefault(c.consecutive, 1))) else row;
    ConfirmedKeeps(c, counted, now, current, newId);
    assert RowOk(counted) && Confirmed(c, counted, now, current, newId).row.applied == row.applied;
  }

  lemma ProbeKeeps(c: Config, row: Row, runs: map<RunId, RunRecord>, now: int, manual: bool, missing: bool,
                   current: Reading, matched: bool, newId: RunId, confirmed: Option<Reading>)
    requires RowGood(c, row, confirmed)
    ensures var done := AfterProbe(c, row, runs, now, manual, missing, current, matched, newId);
            RowGood(c, done.row, Latest(done, confirmed))
  {
    ReconciledKeeps(c, row, runs, now, confirmed);
    JudgedKeeps(c, Seen(c, Reconciled(c, row, runs, now), now, current, matched), now, current, matched, newId,
                confirmed);
  }

  /** A request always comes with the row naming the new run, and is the only thing that moves the trigger time. */
  lemma ProbeRequests(c: Config, row: Row, runs: map<RunId, RunRecord>, now: int, manual: bool, missing: bool,
                      current: Reading, matched: bool, newId: RunId)
    ensures var done := AfterProbe(c, row, runs, now, manual, missing, current, matched, newId);
            if done.request.Some?
              then done.row.runId == Some(newId) && done.row.lastTrigger == Some(now) && !WithinDebounce(c, row, now)
            else (done.row.runId.None? || done.row.runId == row.runId) && done.row.lastTrigger == row.lastTrigger
  {
    var reconciled := Reconciled(c, row, runs, now);
    assert reconciled.lastTrigger == row.lastTrigger && (reconciled.runId.None? || reconciled.runId == row.runId);
  }

  lemma StepProbeKeepsGood(c: Config, s: System, manual: bool, missing: bool, current: Reading, matched: bool,
                           newId: RunId)
    requires Good(c, s)
    ensures Good(c, StepProbe(c, s, manual, missing, current, matched, newId))
  {
    ProbeKeeps(c, s.row, s.runs, s.now, manual, missing, current, matched, newId, s.confirmed);
    ProbeRequests(c, s.row, s.runs, s.now, manual, missing, current, matched, newId);
  }

  lemma StepFinishKeepsGood(c: Config, s: System, id: RunId, success: bool)
    requires Good(c, s) && id in s.runs
    ensures Good(c, StepFinish(c, s, id, success))
  {
    FinalizedKeeps(c, s.row, id, s.runs[id].(status := if success then Succeeded else Failed), s.now, s.confirmed);
  }

  lemma StepRebuildKeepsGood(c: Config, s: System, current: Reading)
    requires Good(c, s)
    ensures Good(c, StepRebuild(c, s, current))
  {
    ReconciledKeeps(c, s.row, s.runs, s.now, s.confirmed);
  }

  lemma OthersKeepGood(c: Config, s: System, e: Event)
    requires Good(c, s) && !e.Probe? && !e.FinishRun? && !e.Rebuild?
    ensures Good(c, Step(c, s, e))
  {
    var after := Step(c, s, e);
    OthersKeepRuns(c, s, e);
    assert after.row.queue == s.row.queue && after.row.pending == s.row.pending && after.row.applied == s.row.applied;
  }

  lemma OthersKeepRuns(c: Config, s: System, e: Event)
    requires Good(c, s) && !e.Probe? && !e.FinishRun? && !e.Rebuild?
    ensures RunsOk(Step(c, s, e))
  {
  }

  lemma StepKeepsGood(c: Config, s: System, e: Event)
    requires Good(c, s)
    ensures Good(c, Step(c, s, e))
  {
    match e
    case Probe(manual, missing, current, matched, newId) =>
      StepProbeKeepsGood(c, s, manual, missing, current, matched, newId);
    case FinishRun(id, success) => if id in s.runs { StepFinishKeepsGood(c, s, id, success); }
    case Rebuild(current) => StepRebuildKeepsGood(c, s, current);
    case _ => OthersKeepGood(c, s, e);
  }

  lemma {:induction false} RunKeepsGood(c: Config, s: System, events: seq<Event>)
    requires Good(c, s)
    ensures Good(c, Run(c, s, events))
    decreases |events|
  {
    if events != [] {
      StepKeepsGood(c, s, events[0]);
      RunKeepsGood(c, Step(c, s, events[0]), events[1..]);
    }
  }

  /** Under merge or queue, whatever happens, the latest confirmed change is never lost. */
  lemma LatestChangeIsKept(c: Config, start: int, events: seq<Event>)
    requires c.overlap != SkipNew
    ensures var s := Run(c, Fresh(start), events);
            s.confirmed.Some? ==>
              s.row.applied == s.confirmed || s.row.pending == s.confirmed || s.confirmed.value in s.row.queue
  {
    RunKeepsGood(c, Fresh(start), events);
  }

  /** In every run, a queue or an owned run has a pending change, and an enabled trigger has a next probe. */
  lemma NothingIsStranded(c: Config, start: int, events: seq<Event>)
    ensures RowOk(Run(c, Fresh(start), events).row)
  {
    RunKeepsGood(c, Fresh(start), events);
  }

  // ---- changes that are confirmed and wait ------------------------------------------------------

  predicate Waits(row: Row, v: Reading) {
    row.pending == Some(v) || v in row.queue
  }

  /** The change waited, and neither waits nor is applied any more. */
  predicate Loses(row: Row, after: Row, v: Reading) {
    Waits(row, v) && !Waits(after, v) && after.applied != Some(v)
  }

  /** The probe confirms its reading as a change, not as the first baseline. */
  predicate Confirms(c: Config, row: Row, runs: map<RunId, RunRecord>, now: int, manual: bool, missing: bool,
                     current: Reading, matched: bool, newId: RunId) {
    AfterProbe(c, row, runs, now, manual, missing, current, matched, newId).confirmed.Some?
    && !(Reconciled(c, row, runs, now).applied.None? && c.first == BaselineOnly)
  }

  /**
   Confirming `current` displaces `v`: in the pending place, unless a run is owned, or at the front of a
   full queue.
   */
  predicate Displaces(c: Config, row: Row, current: Reading, v: Reading) {
    v != current && row.applied != Some(v)
    && if row.runId.None? || c.overlap == Merge then row.pending == Some(v) && v !in row.queue
       else
         c.overlap == Queue && row.pending != Some(v) && current !in row.queue && |row.queue| == QUEUE_LIMIT
         && row.queue[0] == v
  }

  lemma ReconcilingLoses(c: Config, row: Row, runs: map<RunId, RunRecord>, now: int, v: Reading)
    requires RowOk(row) && Waits(row, v)
    ensures var mid := Reconciled(c, row, runs, now); Waits(mid, v) || mid.applied == Some(v)
  {
    if row.queue != [] {
      TailKeeps(row.queue, v);
    }
  }

  lemma ConfirmingLosesIff(c: Config, row: Row, now: int, current: Reading, newId: RunId, v: Reading)
    requires RowOk(row) && Waits(row, v)
    ensures Loses(row, Confirmed(c, row, now, current, newId).row, v) <==> Displaces(c, row, current, v)
  {
    if row.runId.Some? && c.overlap == Queue {
      QueueLosesIff(row.queue, current, v);
    }
  }

  lemma QueueLosesIff(queue: seq<Reading>, current: Reading, v: Reading)
    requires Distinct(queue) && |queue| <= QUEUE_LIMIT
    ensures var kept := LastEntries(if current in queue then queue else queue + [current]);
            v in queue && v !in kept <==> current !in queue && |queue| == QUEUE_LIMIT && queue[0] == v
  {
    var longer := queue + [current];
    if current !in queue && |queue| == QUEUE_LIMIT {
      assert LastEntries(longer) == longer[1..] && longer == [queue[0]] + longer[1..]
             && longer[1..] == queue[1..] + [current];
      assert queue == [queue[0]] + queue[1..];
      assert queue[0] !in queue[1..];
    }
  }

  lemma JudgingLosesIff(c: Config, row: Row, now: int, current: Reading, matched: bool, newId: RunId, v: Reading)
    requires RowOk(row) && Waits(row, v)
    ensures var done := Judged(c, row, now, current, matched, newId);
            Loses(row, done.row, v) <==>
              (done.confirmed.Some? && !(row.applied.None? && c.first == BaselineOnly) && Displaces(c, row, current, v))
  {
    var forced := row.applied.None? || (row.pending.Some? && row.runId.None?);
    var counted := if forced then row.(matches := Max(row.matches, OrDefault(c.consecutive, 1))) else row;
    ConfirmingLosesIff(c, counted, now, current, newId, v);
    assert Displaces(c, counted, current, v) <==> Displaces(c, row, current, v);
  }

  lemma SeenLosesIff(c: Config, mid: Row, now: int, current: Reading, matched: bool, newId: RunId, v: Reading)
    requires RowOk(mid) && Waits(mid, v)
    ensures var done := Judged(c, Seen(c, mid, now, current, matched), now, current, matched, newId);
            Loses(mid, done.row, v) <==>
              (done.confirmed.Some? && !(mid.applied.None? && c.first == BaselineOnly) && Displaces(c, mid, current, v))
  {
    var seen := Seen(c, mid, now, current, matched);
    JudgingLosesIff(c, seen, now, current, matched, newId, v);
    assert Displaces(c, seen, current, v) <==> Displaces(c, mid, current, v);
  }

  lemma ProbingLosesIff(c: Config, row: Row, runs: map<RunId, RunRecord>, now: int, manual: bool, missing: bool,
                        current: Reading, matched: bool, newId: RunId, v: Reading)
    requires RowOk(row) && Waits(row, v)
    ensures Loses(row, AfterProbe(c, row, runs, now, manual, missing, current, matched, newId).row, v)
            <==> Confirms(c, row, runs, now, manual, missing, current, matched, newId)
                 && Waits(Reconciled(c, row, runs, now), v) && Displaces(c, Reconciled(c, row, runs, now), current, v)
  {
    var mid := Reconciled(c, row, runs, now);
    ReconcilingLoses(c, row, runs, now, v);
    ReconciledKeeps(c, row, runs, now, None);
    if Waits(mid, v) {
      SeenLosesIff(c, mid, now, current, matched, newId, v);
    }
  }

  /**
   A change that waits is lost unapplied exactly when a probe displaces it by the change it confirms, or when a
   rebuild is accepted and finds another reading.  Without a run in flight, that is a retry, under every policy; under
   the queue policy it is otherwise the oldest of a hundred.
   */
  lemma WaitingChangeIsLostIff(c: Config, start: int, events: seq<Event>, e: Event, v: Reading)
    requires Waits(Run(c, Fresh(start), events).row, v)
    ensures var s := Run(c, Fresh(start), events);
            Loses(s.row, Step(c, s, e).row, v) <==>
            match e
            case Probe(manual, missing, current, matched, newId) =>
              newId !in s.planned && Confirms(c, s.row, s.runs, s.now, manual, missing, current, matched, newId)
              && Waits(Reconciled(c, s.row, s.runs, s.now), v)
              && Displaces(c, Reconciled(c, s.row, s.runs, s.now), current, v)
            case Rebuild(current) => !OwnsLiveRun(s.row, s.runs) && current != v
            case _ => false
  {
    RunKeepsGood(c, Fresh(start), events);
    StepLosesIff(c, Run(c, Fresh(start), events), e, v);
  }

  lemma StepLosesIff(c: Config, s: System, e: Event, v: Reading)
    requires Good(c, s) && Waits(s.row, v)
    ensures Loses(s.row, Step(c, s, e).row, v) <==>
            match e
            case Probe(manual, missing, current, matched, newId) =>
              newId !in s.planned && Confirms(c, s.row, s.runs, s.now, manual, missing, current, matched, newId)
              && Waits(Reconciled(c, s.row, s.runs, s.now), v)
              && Displaces(c, Reconciled(c, s.row, s.runs, s.now), current, v)
            case Rebuild(current) => !OwnsLiveRun(s.row, s.runs) && current != v
            case _ => false
  {
    match e
    case Probe(manual, missing, current, matched, newId) =>
      ProbingLosesIff(c, s.row, s.runs, s.now, manual, missing, current, matched, newId, v);
    case FinishRun(id, success) => if id in s.runs { FinishingLosesNothing(c, s, id, success, v); }
    case Rebuild(current) => assert Step(c, s, e) == StepRebuild(c, s, current);
    case _ => OthersLoseNothing(c, s, e, v);
  }

  lemma OthersLoseNothing(c: Config, s: System, e: Event, v: Reading)
    requires Waits(s.row, v) && !e.Probe? && !e.FinishRun? && !e.Rebuild?
    ensures Waits(Step(c, s, e).row, v)
  {
  }

  lemma FinishingLosesNothing(c: Config, s: System, id: RunId, success: bool, v: Reading)
    requires RowOk(s.row) && id in s.runs && Waits(s.row, v)
    ensures !Loses(s.row, Step(c, s, FinishRun(id, success)).row, v)
  {
    assert Step(c, s, FinishRun(id, success)) == StepFinish(c, s, id, success);
    if s.row.queue != [] {
      TailKeeps(s.row.queue, v);
    }
  }

  ghost predicate LeftAlone(c: Config, row: Row, runs: map<RunId, RunRecord>, now: int, manual: bool, missing: bool,
                            current: Reading, matched: bool, newId: RunId) {
    AfterProbe(c, row, runs, now, manual, missing, current, matched, newId).row == row
  }

  /** What a probe changes whenever it comes this far is the time of the next one. */
  lemma ProbeSetsTheNext(c: Config, row: Row, runs: map<RunId, RunRecord>, now: int, manual: bool, missing: bool,
                         current: Reading, matched: bool, newId: RunId)
    requires !((!row.enabled || row.state == Retired || missing) && !manual) && row.state != Dispatching
    ensures AfterProbe(c, row, runs, now, manual, missing, current, matched, newId).row.nextProbe
            == Some(now + ProbeSeconds(c))
  {
  }

  /**
   But the next probe need not act: whatever it reads and whenever it comes, it leaves a row as it is exactly if
   a dispatch of the row is under way, or it retires a row that is retired already.
   */
  lemma ProbeLeavesAloneIff(c: Config, row: Row, runs: map<RunId, RunRecord>, manual: bool, missing: bool)
    ensures (forall now, current, matched, newId ::
             LeftAlone(c, row, runs, now, manual, missing, current, matched, newId))
            <==> if (!row.enabled || row.state == Retired || missing) && !manual then row == Retire(row)
            else row.state == Dispatching
  {
    var current := Reading(0);
    if (!row.enabled || row.state == Retired || missing) && !manual {
      if row != Retire(row) {
        assert !LeftAlone(c, row, runs, 0, manual, missing, current, false, 0);
      }
    } else if row.state != Dispatching {
      ProbeSetsTheNext(c, row, runs, 0, manual, missing, current, false, 0);
      ProbeSetsTheNext(c, row, runs, 1, manual, missing, current, false, 0);
      assert !(LeftAlone(c, row, runs, 0, manual, missing, current, false, 0)
               && LeftAlone(c, row, runs, 1, manual, missing, current, false, 0));
    }
  }

  predicate OwnsLiveRun(row: Row, runs: map<RunId, RunRecord>) {
    row.runId.Some? && row.runId.value in runs && IsLive(runs[row.runId.value])
  }

  /** What takes a trigger out of dispatching: the dispatcher's report, its run's end, or somebody else's request. */
  lemma DispatchingIsLeftIff(c: Config, s: System, e: Event)
    requires s.row.state == Dispatching
    ensures Step(c, s, e).row.state != Dispatching <==>
            match e
            case Probe(manual, missing, _, _, newId) => newId !in s.planned && (!s.row.enabled || missing) && !manual
            case DispatchFails(id) => id in s.planned
            case DispatchReturns(id) => s.row.runId == Some(id) && OwnsLiveRun(s.row, s.runs)
            case FinishRun(id, _) => s.row.runId == Some(id) && id in s.runs
            case Rebuild(_) => !OwnsLiveRun(s.row, s.runs)
            case ProbeFails(_) => true
            case Switch(_) => true
            case Unpublish => true
            case _ => false
  {
    if e.Rebuild? {
      assert Step(c, s, e) == StepRebuild(c, s, e.current);
    }
  }

  lemma DispatchesAreSpaced(c: Config, start: int, events: seq<Event>, i: nat, j: nat)
    requires i < j < |Run(c, Fresh(start), events).dispatches|
    ensures var times := Run(c, Fresh(start), events).dispatches;
            times[j] - times[i] >= (j - i) * DebounceSeconds(c)
    decreases j
  {
    RunKeepsGood(c, Fresh(start), events);
    var times := Run(c, Fresh(start), events).dispatches;
    if i + 1 < j {
      DispatchesAreSpaced(c, start, events, i, j - 1);
      assert (j - i) * DebounceSeconds(c) == (j - 1 - i) * DebounceSeconds(c) + DebounceSeconds(c);
    }
  }

  // ---- the watermark -----------------------------------------------------------------------------

  /** The run that settled a change: it succeeded, and the row named it as its own. */
  predicate SettledBy(s: System, after: System, id: RunId) {
    s.row.runId == Some(id) && id in s.planned && id in after.runs
    && after.runs[id].status == Succeeded && after.row.applied == Some(s.planned[id])
  }

  /** The step sets the watermark to what the source shows at this moment. */
  predicate Baselines(c: Config, s: System, e: Event) {
    e.Rebuild? || (e.Probe? && s.row.applied.None? && c.first == BaselineOnly)
  }

  lemma ReconcilingMovesBySuccess(c: Config, row: Row, runs: map<RunId, RunRecord>, now: int)
    ensures var after := Reconciled(c, row, runs, now);
            after.applied != row.applied ==>
              row.runId.Some? && row.runId.value in runs && runs[row.runId.value].status == Succeeded
              && after.applied == Some(runs[row.runId.value].reading)
  {
  }

  lemma ProbeMovesBySuccess(c: Config, row: Row, runs: map<RunId, RunRecord>, now: int, manual: bool, missing: bool,
                            current: Reading, matched: bool, newId: RunId)
    ensures var after := AfterProbe(c, row, runs, now, manual, missing, current, matched, newId).row;
            after.applied == row.applied || after.applied == Reconciled(c, row, runs, now).applied
            || (row.applied.None? && c.first == BaselineOnly && after.applied == Some(current))
  {
    var seen := Seen(c, Reconciled(c, row, runs, now), now, current, matched);
    assert seen.applied.Some? ==> Judged(c, seen, now, current, matched, newId).row.applied == seen.applied;
  }

  /** The watermark moves by a baseline, or to the value the owned run was dispatched with, once that run succeeded. */
  lemma WatermarkMovesBySuccess(c: Config, s: System, e: Event)
    requires Good(c, s)
    ensures var after := Step(c, s, e);
            after.row.applied != s.row.applied ==>
              (Baselines(c, s, e) && after.row.applied == Some(e.current))
              || (s.row.runId.Some? && SettledBy(s, after, s.row.runId.value))
  {
    if e.Probe? {
      ReconcilingMovesBySuccess(c, s.row, s.runs, s.now);
      ProbeMovesBySuccess(c, s.row, s.runs, s.now, e.manual, e.missing, e.current, e.matched, e.newId);
    } else if e.FinishRun? && e.id in s.runs {
      assert Step(c, s, e) == StepFinish(c, s, e.id, e.success);
    } else if e.Rebuild? {
      assert Step(c, s, e) == StepRebuild(c, s, e.current);
    }
  }

  /** The same over whole runs: whatever happened before, the next step moves the watermark in no other way. */
  lemma WatermarkIsNeverWrong(c: Config, start: int, events: seq<Event>, e: Event)
    ensures var s := Run(c, Fresh(start), events);
            var after := Step(c, s, e);
            after.row.applied != s.row.applied ==>
              (Baselines(c, s, e) && after.row.applied == Some(e.current))
              || (s.row.runId.Some? && SettledBy(s, after, s.row.runId.value))
  {
    RunKeepsGood(c, Fresh(start), events);
    WatermarkMovesBySuccess(c, Run(c, Fresh(start), events), e);
  }

  lemma FinalizingTwiceIsOnce(c: Config, row: Row, id: RunId, run: RunRecord, now: int, later: int)
    ensures var once := Finalized(c, row, id, run, now);
            Finalized(c, once, id, run, later) == once && once.runId != Some(id)
  {
  }

  /** A run the row does not name (an orphan of the dispatching window, say) can finish without touching the row. */
  lemma OrphanLeavesTheRowAlone(c: Config, s: System, e: Event)
    requires (e.FinishRun? || e.LoseRun? || e.CreateRun? || e.StartRun?) && s.row.runId != Some(e.id)
    ensures Step(c, s, e).row == s.row
  {
  }

  lemma ConfirmedSkips(c: Config, row: Row, now: int, current: Reading, matched: bool, newId: RunId)
    requires c.overlap == SkipNew
    ensures var done := Judged(c, row, now, current, matched, newId);
            done.confirmed.Some? ==>
              (done.confirmed == Some(current)
               && (Kept(done.row, Some(current))
                   <==> row.runId.None? || row.pending == Some(current) || current in row.queue))
  {
  }

  /**
   Under the skip policy a probe that confirms a change keeps it exactly if the trigger owns no live run, or the
   change is already waiting.
   */
  lemma SkipKeepsIff(c: Config, row: Row, runs: map<RunId, RunRecord>, now: int, manual: bool, missing: bool,
                     current: Reading, matched: bool, newId: RunId)
    requires c.overlap == SkipNew
    ensures var done := AfterProbe(c, row, runs, now, manual, missing, current, matched, newId);
            done.confirmed.Some? ==>
              (Kept(done.row, done.confirmed)
               <==> !OwnsLiveRun(row, runs) || row.pending == Some(current) || current in row.queue)
  {
    var mid := Reconciled(c, row, runs, now);
    assert mid.runId.None? <==> !OwnsLiveRun(row, runs);
    ConfirmedSkips(c, Seen(c, mid, now, current, matched), now, current, matched, newId);
  }

  /** So `LatestChangeIsKept` fails for it: a change confirmed during a run is gone after that run succeeded. */
  lemma SkipLosesAChange(c: Config, first: Reading, second: Reading)
    requires c == Config(SkipNew, RunAtOnce, 1, 0, None, 5, 5) && first != second
    ensures exists events :: var s := Run(c, Fresh(0), events);
              s.confirmed == Some(second) && s.row.applied == Some(first) && s.row.pending.None? && s.row.queue == []
  {
    var s0 := Fresh(0);
    var e1, e2, e3, e4 :=
      Probe(false, false, first, true, 0), CreateRun(0), DispatchReturns(0), Probe(false, false, second, true, 1);
    FirstProbeDispatches(c, first);
    RunningAfterDispatch(c, Step(c, s0, e1), first);
    SkippedThenFinished(c, Step(c, Step(c, Step(c, s0, e1), e2), e3), first, second);
    RunOfFive(c, s0, e1, e2, e3, e4, FinishRun(0, true));
  }

  /** The trigger runs its first change. */
  predicate RunsFirst(s: System, first: Reading) {
    s.row.enabled && s.row.state == RunningRun && s.row.runId == Some(0) && s.row.pending == Some(first)
    && s.row.queue == []
    && s.row.applied.None? && s.row.lastTrigger == Some(s.now) && s.row.matches >= 0
    && s.runs == map[0 := RunRecord(Queued, first)] && s.planned == map[0 := first]
  }

  lemma RunningAfterDispatch(c: Config, s: System, first: Reading)
    requires s.row == Row(true, Dispatching, None, Some(first), [], Some(first), Some(0), 1, Some(0), Some(300))
    requires s.runs == map[] && s.planned == map[0 := first] && s.now == 0
    ensures RunsFirst(Step(c, Step(c, s, CreateRun(0)), DispatchReturns(0)), first)
  {
    var created := Step(c, s, CreateRun(0));
    assert created == s.(runs := map[0 := RunRecord(Queued, first)]);
  }

  lemma SkippedThenFinished(c: Config, s: System, first: Reading, second: Reading)
    requires c.overlap == SkipNew && c.first == RunAtOnce && c.consecutive == 1 && RunsFirst(s, first)
    ensures var after := Step(c, Step(c, s, Probe(false, false, second, true, 1)), FinishRun(0, true));
            after.confirmed == Some(second) && after.row.applied == Some(first) && after.row.pending.None?
            && after.row.queue == []
  {
    SecondProbeIsSkipped(c, s, second, 1);
    var skipped := Step(c, s, Probe(false, false, second, true, 1));
    assert Step(c, skipped, FinishRun(0, true)) == StepFinish(c, skipped, 0, true);
  }

  lemma SecondProbeIsSkipped(c: Config, s: System, second: Reading, newId: RunId)
    requires c.overlap == SkipNew && c.first == RunAtOnce && c.consecutive == 1
    requires s.row.enabled && s.row.state == RunningRun && s.row.runId.Some? && s.row.runId.value in s.runs
    requires IsLive(s.runs[s.row.runId.value]) && newId !in s.planned && s.row.matches >= 0
    ensures var after := Step(c, s, Probe(false, false, second, true, newId));
            after == s.(row := Seen(c, s.row, s.now, second, true), confirmed := Some(second))
            || after == s.(row := Seen(c, s.row, s.now, second, true).(matches := Max(s.row.matches + 1, 1)),
                           confirmed := Some(second))
  {
    assert Reconciled(c, s.row, s.runs, s.now) == s.row;
    var seen := Seen(c, s.row, s.now, second, true);
    assert Judged(c, seen, s.now, second, true, newId).confirmed == Some(second);
  }

  /**
   Under the queue policy, then, only the latest change is safe: the probe after the run overwrites the change that
   waits, the queued one when the run succeeded and that of the run itself when it failed.
   */
  lemma QueueLosesAChange(c: Config, first: Reading, second: Reading, third: Reading, success: bool)
    requires c == Config(Queue, RunAtOnce, 1, 0, None, 5, 5) && first != second && first != third && second != third
    ensures exists events, e :: var s := Run(c, Fresh(0), events);
              s.confirmed == Some(second) && Loses(s.row, Step(c, s, e).row, if success then second else first)
  {
    var events := QueuedRun(c, first, second, success);
    RetryOverwrites(c, Run(c, Fresh(0), events), third, if success then second else first);
  }

  lemma QueuedRun(c: Config, first: Reading, second: Reading, success: bool) returns (events: seq<Event>)
    requires c == Config(Queue, RunAtOnce, 1, 0, None, 5, 5) && first != second
    ensures QueuedAndEnded(Run(c, Fresh(0), events), first, second, success)
  {
    var s0 := Fresh(0);
    var e1, e2, e3, e4 :=
      Probe(false, false, first, true, 0), CreateRun(0), DispatchReturns(0), Probe(false, false, second, true, 1);
    FirstProbeDispatches(c, first);
    RunningAfterDispatch(c, Step(c, s0, e1), first);
    QueuedThenFinished(c, Step(c, Step(c, Step(c, s0, e1), e2), e3), first, second, success);
    RunOfFive(c, s0, e1, e2, e3, e4, FinishRun(0, success));
    events := [e1, e2, e3, e4, FinishRun(0, success)];
  }

  /** The second change was queued behind the run of the first, and the run has ended. */
  predicate QueuedAndEnded(s: System, first: Reading, second: Reading, success: bool) {
    && s.confirmed == Some(second) && s.row.enabled && s.row.state == PendingRetry && s.row.runId.None?
    && s.row.pending == Some(if success then second else first) && 1 !in s.planned
    && s.row.queue == (if success then [] else [second]) && s.row.lastTrigger == Some(s.now)
    && s.row.applied == if success then Some(first) else None
  }

  lemma QueuedThenFinished(c: Config, s: System, first: Reading, second: Reading, success: bool)
    requires c.overlap == Queue && c.first == RunAtOnce && c.consecutive == 1 && RunsFirst(s, first)
    requires first != second
    ensures QueuedAndEnded(Step(c, Step(c, s, Probe(false, false, second, true, 1)), FinishRun(0, success)), first,
                           second, success)
  {
    SecondProbeIsQueued(c, s, second, 1);
    var queued := Step(c, s, Probe(false, false, second, true, 1));
    assert Step(c, queued, FinishRun(0, success)) == StepFinish(c, queued, 0, success);
  }

  lemma SecondProbeIsQueued(c: Config, s: System, second: Reading, newId: RunId)
    requires c.overlap == Queue && c.first == RunAtOnce && c.consecutive == 1
    requires s.row.enabled && s.row.state == RunningRun && s.row.queue == [] && OwnsLiveRun(s.row, s.runs)
    requires newId !in s.planned && s.row.matches >= 0
    ensures var after := Step(c, s, Probe(false, false, second, true, newId));
            exists matches ::
              after == s.(row := Seen(c, s.row, s.now, second, true).(matches := matches, queue := [second]),
                          confirmed := Some(second))
  {
    assert Reconciled(c, s.row, s.runs, s.now) == s.row;
    var seen := Seen(c, s.row, s.now, second, true);
    var matches := Judged(c, seen, s.now, second, true, newId).row.matches;
    assert LastEntries([] + [second]) == [second];
    assert Judged(c, seen, s.now, second, true, newId)
           == Probed(seen.(matches := matches, queue := [second]), None, Some(second));
  }

  /** Matched or not, a probe that finds a change waiting and no run in flight retries with what it reads. */
  lemma RetryOverwrites(c: Config, s: System, third: Reading, v: Reading)
    requires c == Config(Queue, RunAtOnce, 1, 0, None, 5, 5) && s.row.enabled && s.row.state == PendingRetry
    requires s.row.runId.None? && s.row.pending == Some(v) && v !in s.row.queue && third != v
             && s.row.applied != Some(v)
    requires s.row.lastTrigger == Some(s.now) && 1 !in s.planned
    ensures Loses(s.row, Step(c, s, Probe(false, false, third, false, 1)).row, v)
  {
    var seen := Seen(c, s.row, s.now, third, false);
    assert Judged(c, seen, s.now, third, false, 1).row.pending == Some(third);
  }

  lemma RunOfFive(c: Config, s: System, e1: Event, e2: Event, e3: Event, e4: Event, e5: Event)
    ensures Run(c, s, [e1, e2, e3, e4, e5]) == Step(c, Step(c, Step(c, Step(c, Step(c, s, e1), e2), e3), e4), e5)
  {
    RunOfFirst(c, s, e1, [e2, e3, e4, e5]);
    RunOfFirst(c, Step(c, s, e1), e2, [e3, e4, e5]);
    RunOfFirst(c, Step(c, Step(c, s, e1), e2), e3, [e4, e5]);
    RunOfFirst(c, Step(c, Step(c, Step(c, s, e1), e2), e3), e4, [e5]);
    RunOfFirst(c, Step(c, Step(c, Step(c, Step(c, s, e1), e2), e3), e4), e5, []);
  }

  lemma RunOfFirst(c: Config, s: System, e: Event, rest: seq<Event>)
    ensures Run(c, s, [e] + rest) == Run(c, Step(c, s, e), rest)
  {
    assert ([e] + rest)[1..] == rest;
  }

  /** The first probe of a trigger that runs at once, on a trigger free of debounce and window. */
  lemma FirstProbeDispatches(c: Config, first: Reading)
    requires c.first == RunAtOnce && c.consecutive == 1 && c.minimumMinutes == 0 && c.window.None?
             && c.probeMinutes == 5
    ensures Step(c, Fresh(0), Probe(false, false, first, true, 0))
            == System(Row(true, Dispatching, None, Some(first), [], Some(first), Some(0), 1, Some(0), Some(300)),
                      map[], map[0 := first], Some(first), [0], 0)
  {
    var row := Fresh(0).row;
    var seen := Seen(c, row, 0, first, true);
    assert seen == Row(true, Active, None, None, [], Some(first), None, 1, None, Some(300));
    assert Judged(c, seen, 0, first, true, 0) == Confirmed(c, seen, 0, first, 0);
    assert AfterProbe(c, row, map[], 0, false, false, first, true, 0) == Confirmed(c, seen, 0, first, 0);
  }

  /** A rebuild between a dispatch and the creation of its run orphans the run, whose success then moves nothing. */
  lemma RebuildOrphansADispatch(c: Config, first: Reading, second: Reading)
    requires c == Config(Merge, RunAtOnce, 1, 0, None, 5, 5) && first != second
    ensures exists events :: var s := Run(c, Fresh(0), events);
              0 in s.runs && s.runs[0] == RunRecord(Succeeded, first) && s.row.applied == Some(second)
              && s.row.runId.None?
  {
    var s0 := Fresh(0);
    var e1, e2, e3, e4, e5 :=
      Probe(false, false, first, true, 0), Rebuild(second), CreateRun(0), DispatchReturns(0), FinishRun(0, true);
    FirstProbeDispatches(c, first);
    var s1 := Step(c, s0, e1);
    var s2 := Step(c, s1, e2);
    assert s2.row.runId.None?;
    var s3 := Step(c, s2, e3);
    var s4 := Step(c, s3, e4);
    var s5 := Step(c, s4, e5);
    RunOfFive(c, s0, e1, e2, e3, e4, e5);
    assert Run(c, s0, [e1, e2, e3, e4, e5]) == s5;
  }

  // ---- the row, updated in place ------------------------------------------------------------

  /** The row stays well formed and loses no change it held. */
  ghost predicate KeepsChanges(row: Row, after: Row) {
    RowOk(row) ==> RowOk(after) && forall change: Option<Reading> :: Kept(row, change) ==> Kept(after, change)
  }

  /** What it confirms, or the change confirmed before, is kept as the overlap policy promises. */
  ghost predicate KeepsConfirmed(c: Config, row: Row, after: Row, confirmed: Option<Reading>) {
    forall before: Option<Reading> {:trigger RowGood(c, row, before)} ::
      RowGood(c, row, before) ==> RowGood(c, after, if confirmed.Some? then confirmed else before)
  }

  lemma FinalizedKeepsChanges(c: Config, row: Row, id: RunId, run: RunRecord, now: int)
    ensures KeepsChanges(row, Finalized(c, row, id, run, now))
  {
    if RowOk(row) {
      forall change: Option<Reading> | Kept(row, change)
        ensures Kept(Finalized(c, row, id, run, now), change)
      {
        FinalizedKeeps(c, row, id, run, now, change);
      }
      FinalizedKeeps(c, row, id, run, now, None);
    }
  }

  lemma ProbeKeepsConfirmed(c: Config, row: Row, runs: map<RunId, RunRecord>, now: int, manual: bool, missing: bool,
                            current: Reading, matched: bool, newId: RunId)
    ensures var done := AfterProbe(c, row, runs, now, manual, missing, current, matched, newId);
            KeepsConfirmed(c, row, done.row, done.confirmed)
  {
    forall before: Option<Reading> | RowGood(c, row, before)
      ensures var done := AfterProbe(c, row, runs, now, manual, missing, current, matched, newId);
              RowGood(c, done.row, if done.confirmed.Some? then done.confirmed else before)
    {
      ProbeKeeps(c, row, runs, now, manual, missing, current, matched, newId, before);
    }
  }

  lemma JudgedKeepsConfirmed(c: Config, row: Row, now: int, current: Reading, matched: bool, newId: RunId)
    ensures var done := Judged(c, row, now, current, matched, newId); KeepsConfirmed(c, row, done.row, done.confirmed)
  {
    forall before: Option<Reading> | RowGood(c, row, before)
      ensures var done := Judged(c, row, now, current, matched, newId);
              RowGood(c, done.row, if done.confirmed.Some? then done.confirmed else before)
    {
      JudgedKeeps(c, row, now, current, matched, newId, before);
    }
  }

  class TriggerRow {
    var enabled: bool
    var state: RowState
    var applied: Option<Reading>
    var pending: Option<Reading>
    var queue: seq<Reading>
    var observed: Option<Reading>
    var runId: Option<RunId>
    var matches: int
    var lastTrigger: Option<int>
    var nextProbe: Option<int>

    ghost function View(): Row
      reads this
    {
      Row(enabled, state, applied, pending, queue, observed, runId, matches, lastTrigger, nextProbe)
    }

    constructor (now: int)
      ensures View() == Row(true, Active, None, None, [], None, None, 0, None, Some(now))
    {
      enabled, state, applied, pending, queue := true, Active, None, None, [];
      observed, runId, matches, lastTrigger, nextProbe := None, None, 0, None, Some(now);
    }

    method Finalize(c: Config, id: RunId, run: RunRecord, now: int)
      modifies this
      ensures View() == Finalized(c, old(View()), id, run, now) && KeepsChanges(old(View()), View())
    {
      FinalizedKeepsChanges(c, View(), id, run, now);
      if runId != Some(id) { return; }
      if run.status == Succeeded {
        applied := Some(run.reading);
        if pending == Some(run.reading) { pending := None; } else { nextProbe := Some(now); }
        runId := None;
        if pending.None? && queue != [] {
          pending, queue := Some(queue[0]), queue[1..];
          nextProbe := Some(now);
        }
        state := if !enabled then Paused else if pending.None? then Active else PendingRetry;
        if !enabled { nextProbe := None; }
      } else {
        runId := None;
        state := if enabled then PendingRetry else Paused;
        nextProbe := if enabled then Some(now + RetrySeconds(c)) else None;
      }
    }

    method Reconcile(c: Config, runs: map<RunId, RunRecord>, now: int)
      modifies this
      ensures View() == Reconciled(c, old(View()), runs, now) && KeepsChanges(old(View()), View())
    {
      if runId.None? { return; }
      if runId.value in runs {
        if IsLive(runs[runId.value]) { return; }
        Finalize(c, runId.value, runs[runId.value], now);
      } else {
        runId, state := None, PendingRetry;
      }
    }

    method Probe(c: Config, runs: map<RunId, RunRecord>, now: int, manual: bool, missing: bool,
                 current: Reading, matched: bool, newId: RunId)
      returns (request: Option<Reading>, ghost confirmed: Option<Reading>)
      modifies this
      ensures Probed(View(), request, confirmed)
              == AfterProbe(c, old(View()), runs, now, manual, missing, current, matched, newId)
      ensures KeepsConfirmed(c, old(View()), View(), confirmed)
    {
      ProbeKeepsConfirmed(c, View(), runs, now, manual, missing, current, matched, newId);
      request, confirmed := None, None;
      if (!enabled || state == Retired || missing) && !manual {
        enabled, state, nextProbe := false, Retired, None;
        return;
      }
      if state == Dispatching { return; }
      Reconcile(c, runs, now);
      Observe(c, now, current, matched);
      request, confirmed := Judge(c, now, current, matched, newId);
    }

    method Observe(c: Config, now: int, current: Reading, matched: bool)
      modifies this
      ensures View() == Seen(c, old(View()), now, current, matched)
    {
      observed, nextProbe := Some(current), Some(now + ProbeSeconds(c));
      matches := if matched then matches + 1 else 0;
    }

    method Judge(c: Config, now: int, current: Reading, matched: bool, newId: RunId)
      returns (request: Option<Reading>, ghost confirmed: Option<Reading>)
      modifies this
      ensures Probed(View(), request, confirmed) == Judged(c, old(View()), now, current, matched, newId)
      ensures KeepsConfirmed(c, old(View()), View(), confirmed)
    {
      JudgedKeepsConfirmed(c, View(), now, current, matched, newId);
      request, confirmed := None, None;
      var accepted := matched;
      if applied.None? {
        if c.first == BaselineOnly || c.first == ManualConfirm {
          if c.first == BaselineOnly { applied, confirmed := Some(current), Some(current); }
          state := if c.first == BaselineOnly then Active else WaitingBaseline;
          return;
        }
        accepted := true;
        matches := Max(matches, OrDefault(c.consecutive, 1));
      }
      if pending.Some? && runId.None? {
        accepted := true;
        matches := Max(matches, OrDefault(c.consecutive, 1));
      }
      if accepted && matches >= Max(1, OrDefault(c.consecutive, 1)) {
        request, confirmed := Confirm(c, now, current, newId);
      }
    }

    method Confirm(c: Config, now: int, current: Reading, newId: RunId)
      returns (request: Option<Reading>, ghost confirmed: Option<Reading>)
      modifies this
      ensures Probed(View(), request, confirmed) == Confirmed(c, old(View()), now, current, newId)
      ensures RowOk(old(View())) ==> RowOk(View()) && (c.overlap != SkipNew ==> Kept(View(), confirmed))
    {
      if RowOk(View()) { ConfirmedKeeps(c, View(), now, current, newId); }
      request, confirmed := None, Some(current);
      if runId.Some? {
        if c.overlap == SkipNew {
        } else if c.overlap == Queue {
          if current !in queue { queue := queue + [current]; }
          queue := LastEntries(queue);
        } else {
          pending := Some(current);
        }
      } else if !InsideWindow(c, now) {
        pending, state := Some(current), PendingWindow;
      } else if WithinDebounce(c, Row(enabled, state, applied, pending, queue, observed, runId, matches, lastTrigger,
                                      nextProbe), now) {
        pending, state := Some(current), PendingDebounce;
      } else {
        pending, runId, lastTrigger, state := Some(current), Some(newId), Some(now), Dispatching;
        request := Some(current);
      }
    }

    method DispatchFailed()
      modifies this
      ensures View() == AfterDispatchFailure(old(View())) && KeepsChanges(old(View()), View())
    {
      runId, state := None, PendingRetry;
    }

    method Dispatched(id: RunId, runs: map<RunId, RunRecord>)
      modifies this
      ensures View() == AfterDispatch(old(View()), id, runs) && KeepsChanges(old(View()), View())
    {
      if runId == Some(id) && id in runs && IsLive(runs[id]) { state := RunningRun; }
    }

    method SwitchTo(on: bool, now: int)
      modifies this
      ensures View() == AfterSwitch(old(View()), on, now) && KeepsChanges(old(View()), View())
    {
      enabled := on;
      state := if on then Active else Paused;
      nextProbe := if on then Some(now) else None;
    }

    /** The service discards its session when it refuses, so a refusal leaves the row as it was. */
    method Rebuild(c: Config, runs: map<RunId, RunRecord>, now: int, current: Reading) returns (ok: bool)
      modifies this
      ensures ok <==> AfterRebuild(c, old(View()), runs, now, current).Some?
      ensures View() == if ok then AfterRebuild(c, old(View()), runs, now, current).value else old(View())
      ensures ok ==> RowOk(View()) && Kept(View(), Some(current))
    {
      if runId.Some? && runId.value in runs && IsLive(runs[runId.value]) { return false; }
      Reconcile(c, runs, now);
      observed, applied, pending, queue, runId := Some(current), Some(current), None, [], None;
      matches, nextProbe, state := 0, Some(now + ProbeSeconds(c)), Active;
      ok := true;
    }

    /** The version is taken offline, or no longer has this trigger. */
    method RetireTrigger()
      modifies this
      ensures View() == Retire(old(View())) && KeepsChanges(old(View()), View())
    {
      enabled, state, nextProbe := false, Retired, None;
    }

    method Republish(now: int)
      modifies this
      ensures View() == AfterRepublish(old(View()), now) && KeepsChanges(old(View()), View())
    {
      if state == Retired { enabled, state := true, Active; }
      nextProbe := if !enabled then None else if nextProbe.Some? then nextProbe else Some(now);
    }

    method MarkProbeFailure(c: Config, missing: bool, now: int)
      modifies this
      ensures View() == AfterProbeFailure(c, old(View()), missing, now) && KeepsChanges(old(View()), View())
    {
      if !enabled || state == Retired || missing {
        enabled, state, nextProbe := false, Retired, None;
      } else {
        state, nextProbe := ProbeFailed, Some(now + RetrySeconds(c));
      }
    }
  }
}
