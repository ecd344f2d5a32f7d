/**
 When a data change trigger acts, and what it leaves: minutes of the day, intervals,
 thresholds and policies spelled out, over whole steps and whole runs.
 */
module ChangeTriggerTimes {
  import opened Basics
  import opened Graphs
  import opened ChangeTrigger

  // ---- the execution window ------------------------------------------------------------------------

  /** Minute 0 is midnight; a window whose end comes before its start goes on over midnight. */
  predicate Allowed(window: Option<(int, int)>, minute: int) {
    match window
    case None => true
    case Some((start, end)) =>
      (start <= end && start <= minute && minute <= end) || (end < start && (start <= minute || minute <= end))
  }

  /** Going forward round the clock from its start, the window is what comes no later than its end. */
  lemma WindowIsAnArc(start: int, end: int, minute: int)
    requires 0 <= start < 1440 && 0 <= end < 1440 && 0 <= minute < 1440
    ensures Allowed(Some((start, end)), minute) <==> (minute - start) % 1440 <= (end - start) % 1440
  {
  }

  predicate AllAllowed(c: Config, times: seq<int>) {
    forall i :: 0 <= i < |times| ==> Allowed(c.window, times[i] / 60 % 1440)
  }

  lemma RequestIsAllowed(c: Config, row: Row, runs: map<RunId, RunRecord>, now: int, manual: bool, missing: bool,
                         current: Reading, matched: bool, newId: RunId)
    ensures AfterProbe(c, row, runs, now, manual, missing, current, matched, newId).request.Some? ==>
              Allowed(c.window, now / 60 % 1440)
  {
  }

  lemma StepKeepsAllowed(c: Config, s: System, e: Event)
    requires AllAllowed(c, s.dispatches)
    ensures AllAllowed(c, Step(c, s, e).dispatches)
  {
    match e
    case Probe(manual, missing, current, matched, newId) =>
      RequestIsAllowed(c, s.row, s.runs, s.now, manual, missing, current, matched, newId);
    case _ =>
  }

  lemma {:induction false} RunKeepsAllowed(c: Config, s: System, events: seq<Event>)
    requires AllAllowed(c, s.dispatches)
    ensures AllAllowed(c, Run(c, s, events).dispatches)
    decreases |events|
  {
    if events != [] {
      StepKeepsAllowed(c, s, events[0]);
      RunKeepsAllowed(c, Step(c, s, events[0]), events[1..]);
    }
  }

  /** In every run every dispatch falls into the window. */
  lemma DispatchesAreInTheWindow(c: Config, start: int, events: seq<Event>, i: nat)
    requires i < |Run(c, Fresh(start), events).dispatches|
    ensures var minute := Run(c, Fresh(start), events).dispatches[i] / 60 % 1440;
            match c.window
            case None => true
            case Some((first, last)) =>
              if first <= last then first <= minute <= last else minute >= first || minute <= last
  {
    RunKeepsAllowed(c, Fresh(start), events);
  }

  /** The seconds that pass in a run. */
  function Elapsed(events: seq<Event>): nat
    decreases |events|
  {
    if events == [] then 0 else (if events[0].Tick? then events[0].seconds else 0) + Elapsed(events[1..])
  }

  /** Time only passes, and every dispatch happened before now. */
  lemma {:induction false} DispatchesAreInThePast(c: Config, s: System, events: seq<Event>)
    requires forall i :: 0 <= i < |s.dispatches| ==> s.dispatches[i] <= s.now
    ensures Run(c, s, events).now == s.now + Elapsed(events)
    ensures forall i :: 0 <= i < |Run(c, s, events).dispatches| ==>
            Run(c, s, events).dispatches[i] <= Run(c, s, events).now
    decreases |events|
  {
    if events != [] {
      DispatchesAreInThePast(c, Step(c, s, events[0]), events[1..]);
    }
  }

  // ---- a probe while no run is owned -------------------------------------------------------------------

  /** The automatic probe finds a trigger to probe, or somebody probes by hand. */
  predicate Probes(s: System, manual: bool, missing: bool) {
    s.row.state != Dispatching && (manual || (s.row.enabled && s.row.state != Retired && !missing))
  }

  /** The matches in a row that confirm a change, and the minutes between two probes, before a retry, between runs. */
  function Threshold(c: Config): int { if c.consecutive <= 1 then 1 else c.consecutive }

  function ProbeEvery(c: Config): int {
    if c.probeMinutes == 0 then 5 else if c.probeMinutes < 1 then 1 else if c.probeMinutes > 1440 then 1440
    else c.probeMinutes
  }

  function RetryAfter(c: Config): int {
    if c.retryMinutes == 0 then 5 else if c.retryMinutes < 1 then 1 else c.retryMinutes
  }

  function AtLeastApart(c: Config): int { if c.minimumMinutes < 0 then 0 else c.minimumMinutes }

  /**
   A change counts after enough matches in a row; the first run, and a change that still waits, count at once, unless
   the configured number is negative.
   */
  predicate Counts(c: Config, row: Row, matched: bool) {
    ((row.applied.None? || (row.pending.Some? && row.runId.None?)) && c.consecutive >= 0)
    || (matched && row.matches + 1 >= Threshold(c))
  }

  predicate MayDispatch(c: Config, s: System) {
    Allowed(c.window, s.now / 60 % 1440)
    && (s.row.lastTrigger.None? || s.now >= s.row.lastTrigger.value + 60 * AtLeastApart(c))
  }

  /** What any probe notes, whatever it decides. */
  predicate Noted(c: Config, s: System, after: System, current: Reading) {
    after.row.observed == Some(current) && after.row.nextProbe == Some(s.now + 60 * ProbeEvery(c))
    && after.row.enabled == s.row.enabled && after.runs == s.runs && after.now == s.now
  }

  /** Before a baseline exists, these policies take it, or wait for somebody to. */
  lemma FirstProbe(c: Config, s: System, manual: bool, missing: bool, current: Reading, matched: bool, newId: RunId)
    requires newId !in s.planned && Probes(s, manual, missing) && s.row.matches >= 0
    requires s.row.runId.None? && s.row.applied.None?
    requires c.first != RunAtOnce
    ensures var after := Step(c, s, Probe(manual, missing, current, matched, newId));
            Noted(c, s, after, current) && after.planned == s.planned && after.dispatches == s.dispatches
            && after.row.pending == s.row.pending && after.row.queue == s.row.queue && after.row.runId.None?
            && after.row.applied == (if c.first == BaselineOnly then Some(current) else None)
            && after.row.state == (if c.first == BaselineOnly then Active else WaitingBaseline)
            && after.confirmed == (if c.first == BaselineOnly then Some(current) else s.confirmed)
  {
  }

  lemma CountedChangeIsConfirmed(c: Config, s: System, manual: bool, missing: bool, current: Reading, matched: bool,
                                 newId: RunId)
    requires newId !in s.planned && Probes(s, manual, missing) && s.row.matches >= 0
    requires s.row.runId.None? && Counts(c, s.row, matched) && (s.row.applied.Some? || c.first == RunAtOnce)
    ensures var after := Step(c, s, Probe(manual, missing, current, matched, newId));
            Noted(c, s, after, current) && after.confirmed == Some(current)
            && after.row.pending == Some(current) && after.row.queue == s.row.queue
            && after.row.applied == s.row.applied
  {
  }

  /** A change that counts is dispatched exactly if the window and the interval allow it, and waits otherwise. */
  lemma CountedChangeIsDispatchedIff(c: Config, s: System, manual: bool, missing: bool, current: Reading, matched: bool,
                                     newId: RunId)
    requires newId !in s.planned && Probes(s, manual, missing) && s.row.matches >= 0
    requires s.row.runId.None? && Counts(c, s.row, matched) && (s.row.applied.Some? || c.first == RunAtOnce)
    ensures var after := Step(c, s, Probe(manual, missing, current, matched, newId));
            if MayDispatch(c, s) then
              after.row.state == Dispatching && after.row.runId == Some(newId) && after.row.lastTrigger == Some(s.now)
              && after.planned == s.planned[newId := current] && after.dispatches == s.dispatches + [s.now]
            else
              after.row.runId.None? && after.row.lastTrigger == s.row.lastTrigger
              && after.planned == s.planned && after.dispatches == s.dispatches
              && after.row.state ==
                 (if Allowed(c.window, s.now / 60 % 1440) then PendingDebounce else PendingWindow)
  {
  }

  /** A reading that does not count is only noted: nothing is confirmed, kept or dispatched. */
  lemma UncountedIsOnlyNoted(c: Config, s: System, manual: bool, missing: bool, current: Reading, matched: bool,
                             newId: RunId)
    requires newId !in s.planned && Probes(s, manual, missing) && s.row.matches >= 0
    requires s.row.runId.None? && !Counts(c, s.row, matched) && (s.row.applied.Some? || c.first == RunAtOnce)
    ensures Step(c, s, Probe(manual, missing, current, matched, newId)) ==
            s.(row := s.row.(observed := Some(current), nextProbe := Some(s.now + 60 * ProbeEvery(c)),
                             matches := if matched then s.row.matches + 1 else 0))
  {
  }

  // ---- a probe while a run is under way ------------------------------------------------------------------

  predicate UnderWay(s: System) {
    s.row.runId.Some? && s.row.runId.value in s.runs && s.runs[s.row.runId.value].status in {Queued, Running}
  }

  /** It never dispatches a second run; what counts is dropped, queued behind the newest hundred, or merged. */
  lemma ChangeMeetsARun(c: Config, s: System, manual: bool, missing: bool, current: Reading, matched: bool,
                        newId: RunId)
    requires newId !in s.planned && Probes(s, manual, missing) && s.row.matches >= 0
    requires UnderWay(s)
    requires s.row.applied.Some? || c.first == RunAtOnce
    ensures var after := Step(c, s, Probe(manual, missing, current, matched, newId));
            Noted(c, s, after, current) && after.planned == s.planned && after.dispatches == s.dispatches
            && after.row.runId == s.row.runId && after.row.state == s.row.state && after.row.applied == s.row.applied
            && after.row.lastTrigger == s.row.lastTrigger
            && after.confirmed == (if Counts(c, s.row, matched) then Some(current) else s.confirmed)
            && after.row.pending ==
               (if Counts(c, s.row, matched) && c.overlap == Merge then Some(current) else s.row.pending)
            && (!Counts(c, s.row, matched) || c.overlap != Queue || (current in s.row.queue && |s.row.queue| <= 100) ==>
                  after.row.queue == s.row.queue)
  {
  }

  lemma QueuedBehindTheNewest(c: Config, s: System, manual: bool, missing: bool, current: Reading, matched: bool,
                              newId: RunId)
    requires newId !in s.planned && Probes(s, manual, missing) && s.row.matches >= 0
    requires UnderWay(s) && c.overlap == Queue
    requires (s.row.applied.Some? || c.first == RunAtOnce) && Counts(c, s.row, matched)
    requires current !in s.row.queue && |s.row.queue| <= 100
    ensures var queue := Step(c, s, Probe(manual, missing, current, matched, newId)).row.queue;
            queue == (if |s.row.queue| < 100 then s.row.queue else s.row.queue[1..]) + [current]
  {
    assert |s.row.queue| == 100 ==> (s.row.queue + [current])[1..] == s.row.queue[1..] + [current];
  }

  // ---- the end of a run ----------------------------------------------------------------------------------

  predicate Owns(s: System, id: RunId) {
    s.row.runId == Some(id) && id in s.runs
  }

  /** Success applies the change the run was dispatched with, and moves up the oldest change in the queue. */
  lemma SuccessApplies(c: Config, s: System, id: RunId)
    requires Owns(s, id)
    ensures var after := Step(c, s, FinishRun(id, true)).row;
            var settled := s.row.pending.None? || s.row.pending == Some(s.runs[id].reading);
            after.applied == Some(s.runs[id].reading) && after.runId.None? && after.enabled == s.row.enabled
            && after.pending == (if !settled then s.row.pending
                                 else if s.row.queue == [] then None else Some(s.row.queue[0]))
            && after.queue == (if settled && s.row.queue != [] then s.row.queue[1..] else s.row.queue)
            && after.state == (if !s.row.enabled then Paused else if after.pending.None? then Active else PendingRetry)
            && (s.row.enabled && after.pending.Some? ==> after.nextProbe == Some(s.now))
            && (!s.row.enabled ==> after.nextProbe.None?)
  {
  }

  /** Failure applies nothing and keeps every change; an enabled trigger tries again after the retry interval. */
  lemma FailureKeeps(c: Config, s: System, id: RunId)
    requires Owns(s, id)
    ensures Step(c, s, FinishRun(id, false)).row ==
            s.row.(runId := None, state := if s.row.enabled then PendingRetry else Paused,
                   nextProbe := if s.row.enabled then Some(s.now + 60 * RetryAfter(c)) else None)
  {
  }

  /** A probe that comes upon an ended run settles it first, as the end of the run would have. */
  lemma ProbeSettlesFirst(c: Config, s: System, id: RunId, manual: bool, missing: bool, current: Reading, matched: bool,
                          newId: RunId)
    requires Owns(s, id) && s.runs[id].status in {Succeeded, Failed} && Probes(s, manual, missing)
             && newId !in s.planned
    ensures var settled := Step(c, s, FinishRun(id, s.runs[id].status == Succeeded));
            settled.runs == s.runs && Step(c, s, Probe(manual, missing, current, matched, newId))
                                      == Step(c, settled, Probe(manual, missing, current, matched, newId))
  {
    var settled := Step(c, s, FinishRun(id, s.runs[id].status == Succeeded));
    assert settled.runs == s.runs;
    assert Reconciled(c, s.row, s.runs, s.now) == settled.row && settled.row.runId.None?;
    var done := Judged(c, Seen(c, settled.row, s.now, current, matched), s.now, current, matched, newId);
    assert AfterProbe(c, s.row, s.runs, s.now, manual, missing, current, matched, newId) == done;
    assert AfterProbe(c, settled.row, s.runs, s.now, manual, missing, current, matched, newId) == done;
  }

  /** A probe that finds its run gone lets go of it and carries on. */
  lemma ProbeForgetsALostRun(c: Config, s: System, manual: bool, missing: bool, current: Reading, matched: bool,
                             newId: RunId)
    requires s.row.runId.Some? && s.row.runId.value !in s.runs && Probes(s, manual, missing) && newId !in s.planned
    ensures Step(c, s, Probe(manual, missing, current, matched, newId))
            == Step(c, s.(row := s.row.(runId := None, state := PendingRetry)),
                    Probe(manual, missing, current, matched, newId))
  {
    var free := s.row.(runId := None, state := PendingRetry);
    assert Reconciled(c, s.row, s.runs, s.now) == free && Reconciled(c, free, s.runs, s.now) == free;
  }

  // ---- requests, dispatchers and runs -----------------------------------------------------------------------

  /**
   An automatic probe of a trigger that is off, gone or retired retires it; while a dispatch is on, none
   does a thing.
   */
  lemma NothingToProbe(c: Config, s: System, manual: bool, missing: bool, current: Reading, matched: bool, newId: RunId)
    requires newId !in s.planned && !Probes(s, manual, missing)
    ensures Step(c, s, Probe(manual, missing, current, matched, newId)) ==
            if !manual && (!s.row.enabled || s.row.state == Retired || missing)
            then s.(row := s.row.(enabled := false, state := Retired, nextProbe := None)) else s
  {
  }

  /** A failed probe is tried again after the retry interval, as long as there is something to probe. */
  lemma FailedProbeIsRetried(c: Config, s: System, missing: bool)
    ensures Step(c, s, ProbeFails(missing)).row ==
            if s.row.enabled && s.row.state != Retired && !missing
            then s.row.(state := ProbeFailed, nextProbe := Some(s.now + 60 * RetryAfter(c)))
            else s.row.(enabled := false, state := Retired, nextProbe := None)
  {
  }

  /** A rebuild is refused while a run is under way; otherwise everything starts over from the reading. */
  lemma RebuildStartsOver(c: Config, s: System, current: Reading)
    ensures UnderWay(s) ==> Step(c, s, Rebuild(current)) == s
    ensures !UnderWay(s) ==>
              Step(c, s, Rebuild(current)) == s.(confirmed := Some(current), row :=
                Row(s.row.enabled, Active, Some(current), None, [], Some(current), None, 0, s.row.lastTrigger,
                    Some(s.now + 60 * ProbeEvery(c))))
  {
    assert Step(c, s, Rebuild(current)) == StepRebuild(c, s, current);
  }

  /** Paused and resumed, or taken offline and published again, a trigger goes on with all it had. */
  lemma OffAndOn(c: Config, s: System)
    ensures Step(c, Step(c, s, Switch(false)), Switch(true)) ==
            s.(row := s.row.(enabled := true, state := Active, nextProbe := Some(s.now)))
    ensures Step(c, Step(c, s, Unpublish), Republish) ==
            s.(row := s.row.(enabled := true, state := Active, nextProbe := Some(s.now)))
    ensures Step(c, s, Switch(false)).row == s.row.(enabled := false, state := Paused, nextProbe := None)
    ensures Step(c, s, Unpublish).row == s.row.(enabled := false, state := Retired, nextProbe := None)
  {
  }

  /** Published again while online, a trigger keeps its state, and a probe that was due stays due. */
  lemma RepublishKeepsTheDate(c: Config, s: System)
    requires s.row.state != Retired
    ensures Step(c, s, Republish).row ==
            s.row.(nextProbe := if !s.row.enabled then None else if s.row.nextProbe.Some? then s.row.nextProbe
                                else Some(s.now))
  {
  }

  /** A dispatcher's report: a failure lets go of the run and keeps the change, a success counts if the run lives. */
  lemma DispatcherReports(c: Config, s: System, id: RunId)
    ensures Step(c, s, DispatchFails(id)).row ==
            if id in s.planned then s.row.(runId := None, state := PendingRetry) else s.row
    ensures Step(c, s, DispatchReturns(id)).row ==
            if s.row.runId == Some(id) && UnderWay(s) then s.row.(state := RunningRun) else s.row
  {
  }

  /** A run is created queued, with the reading it was planned for, starts once, and is lost only while it runs. */
  lemma RunsTakeTheirCourse(c: Config, s: System, id: RunId)
    ensures Step(c, s, CreateRun(id)) ==
            if id in s.planned && id !in s.runs then s.(runs := s.runs[id := RunRecord(Queued, s.planned[id])]) else s
    ensures Step(c, s, StartRun(id)) ==
            if id in s.runs && s.runs[id].status == Queued
            then s.(runs := s.runs[id := RunRecord(Running, s.runs[id].reading)]) else s
    ensures Step(c, s, LoseRun(id)) ==
            if id in s.runs && s.runs[id].status == Running
            then s.(runs := s.runs[id := RunRecord(Failed, s.runs[id].reading)]) else s
  {
  }

  /** A change that a failed dispatch left behind is dispatched by the next probe that the window and interval allow. */
  lemma LeftBehindIsRetried(c: Config, s: System, id: RunId, current: Reading, newId: RunId)
    requires id in s.planned && newId !in s.planned && s.row.enabled && s.row.pending.Some? && s.row.matches >= 0
    requires c.consecutive >= 0 && (s.row.applied.Some? || c.first == RunAtOnce) && MayDispatch(c, s)
    ensures var failed := Step(c, s, DispatchFails(id));
            var after := Step(c, failed, Probe(false, false, current, false, newId));
            after.row.state == Dispatching && after.planned == s.planned[newId := current]
            && after.dispatches == s.dispatches + [s.now]
  {
    var failed := Step(c, s, DispatchFails(id));
    CountedChangeIsDispatchedIff(c, failed, false, false, current, false, newId);
  }
}
