/**
 What workers do with what they find, and what the counters of a run count.

 The laws say in states and stages what one worker leaves that nobody disturbs, what a
 failure and its retry come to, and that good readings complete a batch.
 */
module AssistantProgress {
  import opened Basics
  import opened AssistantExecution

  /** The batch after one worker has advanced it on what it found. */
  function Turn(w: World, l: Look): World {
    Run(w, Advances(w.record.state, l))
  }

  function Turns(w: World, looks: seq<Look>): World
    decreases |looks|
  {
    if looks == [] then w else Turn(Turns(w, looks[..|looks| - 1]), looks[|looks| - 1])
  }

  // ---- one worker ------------------------------------------------------------------------------------

  /** A stage found succeeded is logged, and the next one is ready; after the fourth the batch is completed. */
  lemma GoodStageIsPassed(w: World, i: Stage, l: Look)
    requires w.record.state == Queued(i) && l.reading == Good && l.records
    ensures var after := Turn(w, l);
            after.record == w.record.(state := if i < 4 then Ready(i + 1) else Completed)
            && after.log == w.log + [i] && after.claims == w.claims
  {
    RunOfOne(w, Succeeds(i));
  }

  /**
   A stage known to have failed, or without its source to standardise, fails the batch; its retry makes it
   ready again.
   */
  lemma BadStageIsRetried(w: World, i: Stage, l: Look)
    requires (w.record.state == Queued(i) && l.reading == Bad)
             || (w.record.state == Ready(3) && i == 3 && l.reading != Good)
    requires w.record.state in w.seen
    ensures var after := Turn(w, l);
            after.record == Record(Failed, Some(At(i))) && Step(after, Resume).record == Record(Ready(i), Some(At(i)))
  {
    RunOfOne(w, Fails(w.record.state));
  }

  /** A worker that raises marks the batch failed; without an earlier mark no retry is accepted. */
  lemma RaisedStageKeepsTheMark(w: World, i: Stage, l: Look)
    requires (w.record.state == Queued(i) && (l.reading == Absent || (l.reading == Good && !l.records)))
             || (w.record.state == Ready(1) && i == 1 && (l.reading == Absent || l.reading == Bad))
    requires w.record.state in w.seen
    ensures var after := Turn(w, l);
            after.record == Record(Failed, if w.record.resume.Some? then w.record.resume else Some(Unresumable))
            && (w.record.resume.None? ==> Step(after, Resume) == after)
  {
    RunOfOne(w, RecordFails(i));
    RunOfOne(w, Raises(w.record.state, false));
  }

  /** What is still open, in flight, completed, failed or matched is left alone. */
  lemma OpenIsLeftAlone(w: World, l: Look)
    requires match w.record.state
             case Queued(_) => l.reading == Open
             case Ready(i) => i == 1 && l.reading == Open
             case _ => true
    ensures Turn(w, l) == w
  {
  }

  /** A ready stage is claimed and handed over: the first and the third only if their source is found good. */
  lemma ReadyStageIsSubmitted(w: World, i: Stage, l: Look)
    requires w.record.state == Ready(i) && w.inFlight[i] == 0 && l.sends && (i == 1 ==> l.dispatches)
    requires i == 1 || i == 3 ==> l.reading == Good
    ensures var after := Turn(w, l);
            after.record == Record(Queued(i), if i == 1 then None else w.record.resume)
            && after.log == w.log && after.claims == Up(w.claims, i) && after.inFlight == w.inFlight
  {
    ClaimThenWrite(w, i);
    RunOfTwo(w, Claim(i), Written(i));
    RunOfThree(w, Claim(i), Written(i), Dispatched);
  }

  /** A submission that raises, or a restore whose dispatch fails, leaves the batch submitting. */
  lemma UnsentStaysSubmitting(w: World, i: Stage, l: Look)
    requires w.record.state == Ready(i) && w.inFlight[i] == 0 && (!l.sends || (i == 1 && !l.dispatches))
    requires i == 1 || i == 3 ==> l.reading == Good
    ensures var after := Turn(w, l);
            after.record == Record(Submitting(i), if l.sends then None else w.record.resume)
            && after.log == w.log && after.claims == Up(w.claims, i) && after.inFlight == w.inFlight
  {
    var claimed := Step(w, Claim(i));
    assert Down(Up(w.inFlight, i), i) == w.inFlight;
    RunOfTwo(w, Claim(i), Unknown(i));
    if l.sends {
      ClaimThenWrite(w, i);
      RunOfThree(w, Claim(i), Written(i), BackWrite);
    }
  }

  // ---- requests from outside -----------------------------------------------------------------------------

  /** A request to activate access takes the job's end for the batch's, whatever its stage: it completes or fails it. */
  lemma ActivationReadsTheJob(w: World, reading: Reading, records: bool)
    ensures var after := Step(w, Activate(reading, records));
            if w.job == NoJob || reading == Absent || reading == Open || (reading == Good && !records) then after == w
            else if reading == Bad then after.record == Record(Failed, Some(Unresumable)) && after.log == w.log
            else after.record == w.record.(state := Completed) && after.job == Settled
                 && after.log == (if w.job == Settled then w.log else w.log + [4])
  {
  }

  /** Matching a blueprint takes the batch off its way and keeps its resume stage. */
  lemma MatchTakesTheBatchOff(w: World)
    ensures Step(w, Match).record == Record(Matched, w.record.resume) && Step(w, Match).log == w.log
  {
  }

  // ---- good readings complete a batch ------------------------------------------------------------------

  /** How far a batch is on its way, in turns of a worker: two for each stage. */
  function Rank(s: State): int {
    match s
    case Ready(i) => 2 * i - 2
    case Queued(i) => 2 * i - 1
    case Completed => 8
    case _ => -1
  }

  predicate AllGood(looks: seq<Look>) {
    forall n :: 0 <= n < |looks| ==> looks[n] == Look(Good, true, true, true)
  }

  /** The stages from `i` to `j`, without `j`. */
  function Stages(i: int, j: int): seq<Stage>
    requires 1 <= i && j <= 5
    decreases j - i
  {
    if i >= j then [] else Stages(i, j - 1) + [j - 1]
  }

  lemma GoodTurnGoesOn(w: World)
    requires 0 <= Rank(w.record.state) < 8 && NoneInFlight(w)
    ensures var after := Turn(w, Look(Good, true, true, true));
            Rank(after.record.state) == Rank(w.record.state) + 1 && NoneInFlight(after)
            && after.log == (if w.record.state.Queued? then w.log + [w.record.state.stage] else w.log)
  {
    var l := Look(Good, true, true, true);
    match w.record.state
    case Ready(i) => ReadyStageIsSubmitted(w, i, l);
    case Queued(i) =>
      GoodStageIsPassed(w, i, l);
      RunOfOne(w, Succeeds(i));
  }

  /** The batch has come `r` turns far, and since stage `from` has logged what it passed. */
  predicate OnItsWay(w: World, log: seq<Stage>, from: int, r: int) {
    Rank(w.record.state) == r && NoneInFlight(w) && 1 <= from && 0 <= r <= 8 && w.log == log + Stages(from, r / 2 + 1)
  }

  lemma TurnKeepsOnItsWay(w: World, log: seq<Stage>, from: int, r: int)
    requires OnItsWay(w, log, from, r) && r < 8 && from <= r / 2 + 1
    ensures OnItsWay(Turn(w, Look(Good, true, true, true)), log, from, r + 1)
  {
    GoodTurnGoesOn(w);
    if w.record.state.Queued? {
      var i: int := w.record.state.stage;
      assert r / 2 + 1 == i && (r + 1) / 2 + 1 == i + 1;
      assert log + Stages(from, i + 1) == log + Stages(from, i) + [w.record.state.stage];
    }
  }

  /**
   From wherever a batch is on its way, each good turn takes it one step on, and the stages it passes succeed in order:
   a new batch is completed after eight.
   */
  lemma {:induction false} GoodTurnsComplete(w: World, looks: seq<Look>)
    requires 0 <= Rank(w.record.state) && NoneInFlight(w) && AllGood(looks)
    requires Rank(w.record.state) + |looks| <= 8
    ensures OnItsWay(Turns(w, looks), w.log, Rank(w.record.state) / 2 + 1, Rank(w.record.state) + |looks|)
    decreases |looks|
  {
    var from := Rank(w.record.state) / 2 + 1;
    if looks == [] {
      assert w.log + Stages(from, from) == w.log;
    } else {
      var init := looks[..|looks| - 1];
      GoodTurnsComplete(w, init);
      TurnKeepsOnItsWay(Turns(w, init), w.log, from, Rank(w.record.state) + |init|);
    }
  }

  lemma NewBatchCompletes(looks: seq<Look>)
    requires |looks| == 8 && AllGood(looks)
    ensures var after := Turns(Initial(), looks); after.record.state == Completed && after.log == [1, 2, 3, 4]
  {
    GoodTurnsComplete(Initial(), looks);
    assert Stages(1, 5) == Stages(1, 2) + [2, 3, 4];
  }

  // ---- what the counters count -------------------------------------------------------------------------

  /** How many events of a run the state before them lets take effect, by this test. */
  ghost function Times(events: seq<Event>, takes: (World, Event) -> bool): nat
    decreases |events|
  {
    if events == [] then 0 else
      var n := |events| - 1;
      Times(events[..n], takes) + If(takes(Run(Initial(), events[..n]), events[n]))
  }

  function Claims(i: Stage): (World, Event) -> bool {
    (w: World, e: Event) => e == Claim(i) && w.record.state == Ready(i)
  }

  function Retries(i: Stage): (World, Event) -> bool {
    (w: World, e: Event) => e == Resume && w.record == Record(Failed, Some(At(i)))
  }

  function Records(i: Stage): (World, Event) -> bool {
    (w: World, e: Event) => e == Written(i) && w.inFlight[i] > 0
  }

  function Losses(i: Stage): (World, Event) -> bool {
    (w: World, e: Event) => e == Unknown(i) && w.inFlight[i] > 0
  }

  function Deliveries(): (World, Event) -> bool {
    (w: World, e: Event) => (e == Dispatched || e == BackWrite) && w.dispatching > 0
  }

  lemma StepCountsClaims(w: World, e: Event, i: Stage)
    ensures Step(w, e).claims[i] == w.claims[i] + If(Claims(i)(w, e))
    ensures Step(w, e).resumes[i] == w.resumes[i] + If(Retries(i)(w, e))
  {
  }

  lemma StepCountsWrites(w: World, e: Event, i: Stage)
    ensures Step(w, e).written[i] == w.written[i] + If(Records(i)(w, e))
    ensures Step(w, e).inFlight[i]
            == w.inFlight[i] + If(Claims(i)(w, e)) - If(Records(i)(w, e)) - If(Losses(i)(w, e))
  {
  }

  /** The counters count what happened: each claim is written, lost, or still in flight, and so is each dispatch. */
  lemma {:induction false} CountersCount(events: seq<Event>, i: Stage)
    ensures var w := Run(Initial(), events);
            w.claims[i] == Times(events, Claims(i)) && w.resumes[i] == Times(events, Retries(i))
            && w.written[i] == Times(events, Records(i))
            && w.claims[i] == w.written[i] + Times(events, Losses(i)) + w.inFlight[i]
    decreases |events|
  {
    if events != [] {
      var n := |events| - 1;
      CountersCount(events[..n], i);
      StepCountsClaims(Run(Initial(), events[..n]), events[n], i);
      StepCountsWrites(Run(Initial(), events[..n]), events[n], i);
    }
  }

  lemma StepCountsDispatches(w: World, e: Event)
    ensures Step(w, e).dispatching == w.dispatching + If(Records(1)(w, e)) - If(Deliveries()(w, e))
  {
  }

  /** A recorded restore is still being dispatched until its dispatch has returned or failed, once. */
  lemma {:induction false} DispatchesAreCounted(events: seq<Event>)
    ensures var w := Run(Initial(), events); w.written[1] == w.dispatching + Times(events, Deliveries())
    decreases |events|
  {
    if events != [] {
      var n := |events| - 1;
      DispatchesAreCounted(events[..n]);
      StepCountsDispatches(Run(Initial(), events[..n]), events[n]);
      StepCountsWrites(Run(Initial(), events[..n]), events[n], 1);
    }
  }

  ghost function RetriesUpTo(events: seq<Event>, i: int): nat
    requires i <= 4
  {
    if i < 1 then 0 else RetriesUpTo(events, i - 1) + Times(events, Retries(i))
  }

  lemma {:induction false} RetriesAddUp(events: seq<Event>, i: nat)
    requires i <= 4
    ensures Sum(Run(Initial(), events).resumes, i) == RetriesUpTo(events, i)
  {
    if i > 0 {
      RetriesAddUp(events, i - 1);
      CountersCount(events, i);
    }
  }

  /** In the events themselves: a stage is claimed once, and once for each retry of it or of a stage before it. */
  lemma ClaimedOncePerRetry(events: seq<Event>, i: Stage)
    ensures Times(events, Claims(i)) <= 1 + RetriesUpTo(events, i)
  {
    SubmittedOncePerResume(events, i);
    CountersCount(events, i);
    RetriesAddUp(events, i);
  }
}
