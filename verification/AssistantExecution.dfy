/**
 The four-stage path of a batch that the assistant owns: restore, synchronise,
 standardise, encrypt.

 Any number of workers advance the batch.  They move it on only by
 compare-and-set, but they record a submission, and a failure, by plain writes
 that may come late.  `Event` is what one such write makes of the stored record;
 `AssistantBatch` is the record with the method one undisturbed worker runs.
 */
module AssistantExecution {
  import opened Basics

  /** 1 restore, 2 synchronise, 3 standardise, 4 encrypt. */
  type Stage = i: int | 1 <= i <= 4 witness 1

  const RESTORE: Stage := 1

  const STANDARD: Stage := 3

  const ENCRYPTION: Stage := 4

  /**
   `Queued` stands for a stage handed over, queued or running, and `Matched` for the three states of blueprint
   matching (awaiting confirmation, path matched, blocked), of which no worker moves a batch on.
   */
  datatype State = Ready(stage: Stage) | Submitting(stage: Stage) | Queued(stage: Stage) | Completed | Failed | Matched

  /** The resume stage: one of the four, or the name of a state no resume accepts. */
  datatype Mark = At(stage: Stage) | Unresumable

  datatype Record = Record(state: State, resume: Option<Mark>)

  /** The SM4 job the batch refers to: none, one whose success is not recorded, or one whose success is. */
  datatype Job = NoJob | Linked | Settled

  /** What somebody finds on looking for the source, run or job of a stage. */
  datatype Reading = Absent | Open | Bad | Good

  function Next(i: Stage): State {
    if i == ENCRYPTION then Completed else Ready(i + 1)
  }

  // ---- the record among its workers -------------------------------------------------------------------

  /** Counters by stage; index 0 is unused. */
  type Counts = c: seq<nat> | |c| == 5 witness [0, 0, 0, 0, 0]

  function Up(c: Counts, i: Stage): Counts { c[i := c[i] + 1] }

  function Down(c: Counts, i: Stage): Counts
    requires c[i] > 0
  {
    c[i := c[i] - 1]
  }

  /**
   `claims` counts the claims of each stage for submission, `inFlight` the claims whose worker has not
   yet written, `written` the recorded submissions and `resumes` the authorised retries of each stage;
   `dispatching` counts the workers that queued a restore and are still dispatching it.  `log` lists the
   stages seen to succeed, and `seen` every state the record has had, so what a slow worker may hold.
   */
  datatype World = World(record: Record, claims: Counts, inFlight: Counts, written: Counts, resumes: Counts,
                         dispatching: nat, job: Job, log: seq<Stage>, seen: set<State>)

  /**
   The writes of the workers, the authorised retry, and two requests that look neither at the state of a batch nor
   at whose it is: to activate secure access, and to match or confirm a blueprint.
   */
  datatype Event =
    | Claim(stage: Stage)
    | Written(stage: Stage)
    | Unknown(stage: Stage)
    | Dispatched
    | BackWrite
    | Succeeds(stage: Stage)
    | RecordFails(stage: Stage)
    | Fails(snapshot: State)
    | Raises(snapshot: State, wiped: bool)
    | Resume
    | Activate(reading: Reading, records: bool)
    | Match

  function Initial(): World {
    World(Record(Ready(RESTORE), None), [0, 0, 0, 0, 0], [0, 0, 0, 0, 0], [0, 0, 0, 0, 0], [0, 0, 0, 0, 0],
          0, NoJob, [], {Ready(RESTORE)})
  }

  function Become(w: World, record: Record): World {
    w.(record := record, seen := w.seen + {record.state})
  }

  /** In which states a worker may find the stage failed, or raise. */
  predicate CanFail(s: State) {
    s.Queued? || s == Ready(STANDARD)
  }

  predicate CanRaise(s: State) {
    s.Queued? || s == Ready(RESTORE)
  }

  function Raised(r: Record, wiped: bool): Record {
    Record(Failed, if wiped || r.resume.None? then Some(Unresumable) else r.resume)
  }

  /** One committed write; an event that cannot happen changes nothing. */
  function Step(w: World, e: Event): World {
    match e
    case Claim(i) =>
      if w.record.state != Ready(i) then w
      else Become(w, w.record.(state := Submitting(i))).(claims := Up(w.claims, i), inFlight := Up(w.inFlight, i))
    case Written(i) =>
      if w.inFlight[i] == 0 then w
      else Become(w, Record(Queued(i), if i == RESTORE then None else w.record.resume)).(
             inFlight := Down(w.inFlight, i), written := Up(w.written, i),
             dispatching := if i == RESTORE then w.dispatching + 1 else w.dispatching,
             job := if i == ENCRYPTION then Linked else w.job)
    case Unknown(i) => if w.inFlight[i] == 0 then w else w.(inFlight := Down(w.inFlight, i))
    case Dispatched => if w.dispatching == 0 then w else w.(dispatching := w.dispatching - 1)
    case BackWrite =>
      if w.dispatching == 0 then w
      else Become(w, w.record.(state := Submitting(RESTORE))).(dispatching := w.dispatching - 1)
    case Succeeds(i) =>
      if w.record.state != Queued(i) then w
      else Become(w, w.record.(state := Next(i))).(
             log := w.log + [i], job := if i == ENCRYPTION then Settled else w.job)
    case RecordFails(i) => if w.record.state != Queued(i) then w else Become(w, Raised(w.record, false))
    case Fails(s) => if s in w.seen && CanFail(s) then Become(w, Record(Failed, Some(At(s.stage)))) else w
    case Raises(s, wiped) => if s in w.seen && CanRaise(s) then Become(w, Raised(w.record, wiped)) else w
    case Resume =>
      if w.record.state == Failed && w.record.resume.Some? && w.record.resume.value.At? then
        var i := w.record.resume.value.stage;
        Become(w, w.record.(state := Ready(i))).(resumes := Up(w.resumes, i))
      else w
    case Activate(reading, records) => AfterActivate(w, reading, records)
    case Match => Become(w, w.record.(state := Matched))
  }

  /** The request takes the job's state for the batch's, whatever stage the batch is in; an exception keeps nothing. */
  function AfterActivate(w: World, reading: Reading, records: bool): World {
    if w.job == NoJob then w
    else if reading == Bad then Become(w, Record(Failed, Some(Unresumable)))
    else if reading == Good && records then
      Become(w, w.record.(state := Completed)).(
        log := if w.job == Settled then w.log else w.log + [ENCRYPTION], job := Settled)
    else w
  }

  function Run(w: World, events: seq<Event>): World
    decreases |events|
  {
    if events == [] then w else Step(Run(w, events[..|events| - 1]), events[|events| - 1])
  }

  // ---- how often a stage is submitted -----------------------------------------------------------------------

  function Count(log: seq<Stage>, i: Stage): nat {
    if log == [] then 0 else Count(log[..|log| - 1], i) + (if log[|log| - 1] == i then 1 else 0)
  }

  function If(b: bool): nat { if b then 1 else 0 }

  /** How often the stage could be entered: at the start or after the stage before it, and by each resume. */
  function Entries(w: World, i: Stage): nat {
    (if i == RESTORE then 1 else Count(w.log, i - 1)) + w.resumes[i]
  }

  /** A recorded submission that may still be seen to succeed. */
  predicate Pending(w: World, i: Stage) {
    if i == ENCRYPTION then w.job == Linked else w.record.state == Queued(i)
  }

  /** Each claim uses up an entry, each recorded submission a claim, and each success a recorded submission. */
  predicate Paid(w: World, i: Stage) {
    w.claims[i] + If(w.record.state == Ready(i)) <= Entries(w, i)
    && w.written[i] + w.inFlight[i] <= w.claims[i]
    && Count(w.log, i) + If(Pending(w, i)) <= w.written[i]
    && (w.record.state == Queued(ENCRYPTION) ==> w.job == Linked)
  }

  predicate AllPaid(w: World) {
    Paid(w, 1) && Paid(w, 2) && Paid(w, 3) && Paid(w, 4)
  }

  lemma CountSnoc(log: seq<Stage>, x: Stage, i: Stage)
    ensures Count(log + [x], i) == Count(log, i) + If(x == i)
  {
    assert (log + [x])[..|log|] == log;
  }

  lemma SuccessKeepsPaid(w: World, x: Stage, i: Stage)
    requires Paid(w, i)
    ensures Paid(Step(w, Succeeds(x)), i)
  {
    CountSnoc(w.log, x, i);
    if i > 1 {
      CountSnoc(w.log, x, i - 1);
    }
  }

  lemma ActivationKeepsPaid(w: World, reading: Reading, records: bool, i: Stage)
    requires Paid(w, i)
    ensures Paid(AfterActivate(w, reading, records), i)
  {
    CountSnoc(w.log, ENCRYPTION, i);
    if i > 1 {
      CountSnoc(w.log, ENCRYPTION, i - 1);
    }
  }

  lemma StepKeepsPaid(w: World, e: Event, i: Stage)
    requires Paid(w, i)
    ensures Paid(Step(w, e), i)
  {
    if e.Succeeds? {
      SuccessKeepsPaid(w, e.stage, i);
    } else if e.Activate? {
      ActivationKeepsPaid(w, e.reading, e.records, i);
    } else {
      assert Step(w, e).log == w.log;
    }
  }

  lemma {:induction false} RunKeepsPaid(events: seq<Event>, i: Stage)
    ensures Paid(Run(Initial(), events), i)
    decreases |events|
  {
    if events != [] {
      var init := events[..|events| - 1];
      RunKeepsPaid(init, i);
      StepKeepsPaid(Run(Initial(), init), events[|events| - 1], i);
    }
  }

  function Sum(c: Counts, i: nat): nat
    requires i <= 4
  {
    if i == 0 then 0 else Sum(c, i - 1) + c[i]
  }

  lemma {:induction false} PaidIsBounded(w: World, i: Stage)
    requires AllPaid(w)
    ensures w.claims[i] <= 1 + Sum(w.resumes, i)
    decreases i
  {
    if i > 1 {
      PaidIsBounded(w, i - 1);
    } else {
      assert Sum(w.resumes, 1) == Sum(w.resumes, 0) + w.resumes[1];
    }
  }

  /**
   Whatever workers do and however late they write, a stage is claimed for submission once, and once for each
   resume of it or of a stage before it.
   */
  lemma SubmittedOncePerResume(events: seq<Event>, i: Stage)
    ensures var w := Run(Initial(), events); w.claims[i] <= 1 + Sum(w.resumes, i)
  {
    RunKeepsPaid(events, 1);
    RunKeepsPaid(events, 2);
    RunKeepsPaid(events, 3);
    RunKeepsPaid(events, 4);
    PaidIsBounded(Run(Initial(), events), i);
  }

  // ---- the order of the stages -----------------------------------------------------------------------------------

  /** How many stages have succeeded in order: the log holds 1, then 2, and so on up to this one. */
  function Progress(log: seq<Stage>): nat {
    if log == [] then 0 else
      var before := Progress(log[..|log| - 1]);
      if log[|log| - 1] == before + 1 then before + 1 else before
  }

  /** How many stages must lie behind a record in this state. */
  function Behind(s: State): int {
    match s
    case Ready(i) => i - 1
    case Submitting(i) => i - 1
    case Queued(i) => i - 1
    case Completed => 4
    case _ => 0
  }

  predicate Ordered(w: World) {
    w.record.state in w.seen
    && (forall s :: s in w.seen ==> Progress(w.log) >= Behind(s))
    && (forall i: Stage :: w.inFlight[i] > 0 ==> Progress(w.log) >= i - 1)
    && (w.record.resume.Some? && w.record.resume.value.At? ==> Progress(w.log) >= w.record.resume.value.stage - 1)
    && (w.job != NoJob ==> Progress(w.log) >= 3) && (w.job == Settled ==> Progress(w.log) >= 4)
  }

  lemma ProgressSnoc(log: seq<Stage>, x: Stage)
    ensures Progress(log + [x]) == if x == Progress(log) + 1 then Progress(log) + 1 else Progress(log)
  {
    assert (log + [x])[..|log|] == log;
  }

  lemma SuccessKeepsOrdered(w: World, x: Stage)
    requires Ordered(w)
    ensures Ordered(Step(w, Succeeds(x)))
  {
    ProgressSnoc(w.log, x);
    assert w.record.state == Queued(x) ==> Progress(w.log) >= x - 1;
  }

  lemma ActivationKeepsOrdered(w: World, reading: Reading, records: bool)
    requires Ordered(w)
    ensures Ordered(AfterActivate(w, reading, records))
  {
    ProgressSnoc(w.log, ENCRYPTION);
  }

  lemma SubmissionKeepsOrdered(w: World, e: Event)
    requires Ordered(w) && (e.Claim? || e.Written? || e.Unknown? || e.Dispatched? || e.BackWrite?)
    ensures Ordered(Step(w, e))
  {
    assert Step(w, e).log == w.log;
  }

  lemma OtherMoveKeepsOrdered(w: World, e: Event)
    requires Ordered(w) && (e.RecordFails? || e.Fails? || e.Raises? || e.Resume? || e.Match?)
    ensures Ordered(Step(w, e))
  {
    assert Step(w, e).log == w.log && Step(w, e).inFlight == w.inFlight && Step(w, e).job == w.job;
  }

  lemma StepKeepsOrdered(w: World, e: Event)
    requires Ordered(w)
    ensures Ordered(Step(w, e))
  {
    match e
    case Succeeds(x) => SuccessKeepsOrdered(w, x);
    case Activate(reading, records) => ActivationKeepsOrdered(w, reading, records);
    case RecordFails(_) | Fails(_) | Raises(_, _) | Resume | Match => OtherMoveKeepsOrdered(w, e);
    case _ => SubmissionKeepsOrdered(w, e);
  }

  lemma {:induction false} RunKeepsOrdered(events: seq<Event>)
    ensures Ordered(Run(Initial(), events))
    decreases |events|
  {
    if events != [] {
      var init := events[..|events| - 1];
      RunKeepsOrdered(init);
      StepKeepsOrdered(Run(Initial(), init), events[|events| - 1]);
    }
  }

  lemma {:induction false} LastStep(log: seq<Stage>, k: nat) returns (n: nat)
    requires 1 <= k <= Progress(log)
    ensures n < |log| && log[n] == k && Progress(log[..n]) >= k - 1
    decreases |log|
  {
    var init := log[..|log| - 1];
    if k <= Progress(init) {
      n := LastStep(init, k);
      assert init[..n] == log[..n];
    } else {
      n := |log| - 1;
    }
  }

  predicate FourInOrder(log: seq<Stage>, a: int, b: int, c: int, d: int) {
    0 <= a < b < c < d < |log| && log[a] == 1 && log[b] == 2 && log[c] == 3 && log[d] == 4
  }

  lemma FullProgressIsInOrder(log: seq<Stage>)
    requires Progress(log) >= 4
    ensures exists a, b, c, d :: FourInOrder(log, a, b, c, d)
  {
    var d := LastStep(log, 4);
    var c := LastStep(log[..d], 3);
    assert log[..d][..c] == log[..c];
    var b := LastStep(log[..c], 2);
    assert log[..c][..b] == log[..b];
    var a := LastStep(log[..b], 1);
    assert FourInOrder(log, a, b, c, d);
  }

  /** A completed batch was restored, then synchronised, then standardised, then encrypted. */
  lemma CompletedInOrder(events: seq<Event>)
    requires Run(Initial(), events).record.state == Completed
    ensures exists a, b, c, d :: FourInOrder(Run(Initial(), events).log, a, b, c, d)
  {
    RunKeepsOrdered(events);
    FullProgressIsInOrder(Run(Initial(), events).log);
  }

  // ---- a submission whose outcome is unknown ------------------------------------------------------------------------

  /**
   Failures are written by a worker that has just read the record, and a dispatch fails before the restore
   moves on.
   */
  predicate Punctual(w: World, e: Event) {
    match e
    case Fails(s) => s == w.record.state
    case Raises(s, wiped) => s == w.record.state && !wiped
    case BackWrite => w.record.state == Queued(RESTORE)
    case _ => true
  }

  /** A request from outside the four stages moves the batch. */
  predicate Outside(w: World, e: Event) {
    match e
    case Activate(reading, records) => w.job != NoJob && (reading == Bad || (reading == Good && records))
    case Match => true
    case _ => false
  }

  predicate Timely(w: World, e: Event) {
    Punctual(w, e) && !Outside(w, e)
  }

  predicate TimelyRun(w: World, events: seq<Event>)
    decreases |events|
  {
    events == [] ||
    var init := events[..|events| - 1];
    TimelyRun(w, init) && Timely(Run(w, init), events[|events| - 1])
  }

  predicate NoneInFlight(w: World) {
    w.inFlight[1] == 0 && w.inFlight[2] == 0 && w.inFlight[3] == 0 && w.inFlight[4] == 0
  }

  predicate PunctualRun(w: World, events: seq<Event>)
    decreases |events|
  {
    events == [] ||
    var init := events[..|events| - 1];
    PunctualRun(w, init) && Punctual(Run(w, init), events[|events| - 1])
  }

  /** Neither a worker nor a resume takes a batch out of these states. */
  predicate AtRest(r: Record) {
    r.state == Completed || r.state == Matched || r == Record(Failed, Some(Unresumable))
  }

  lemma SubmittingStays(w: World, e: Event)
    requires w.record.state.Submitting? && NoneInFlight(w) && Punctual(w, e)
    ensures var after := Step(w, e);
            NoneInFlight(after) && after.claims == w.claims
            && if Outside(w, e) then AtRest(after.record) else after.record == w.record
  {
  }

  lemma RestStays(w: World, e: Event)
    requires AtRest(w.record) && NoneInFlight(w) && Punctual(w, e)
    ensures var after := Step(w, e); NoneInFlight(after) && after.claims == w.claims && AtRest(after.record)
  {
  }

  /**
   Nobody submits a second time: after a submission without a known outcome no stage is claimed again.  The batch
   stays as it is exactly as long as no request from outside moves it.
   */
  lemma {:induction false} UnknownIsFinal(w: World, events: seq<Event>)
    requires w.record.state.Submitting? && NoneInFlight(w) && PunctualRun(w, events)
    ensures var after := Run(w, events);
            NoneInFlight(after) && after.claims == w.claims && (after.record == w.record <==> TimelyRun(w, events))
            && (after.record == w.record || AtRest(after.record))
    decreases |events|
  {
    if events != [] {
      var init := events[..|events| - 1];
      UnknownIsFinal(w, init);
      if AtRest(Run(w, init).record) {
        RestStays(Run(w, init), events[|events| - 1]);
      } else {
        SubmittingStays(Run(w, init), events[|events| - 1]);
      }
    }
  }

  /** In a timely run, only the worker that claimed a submission is under way, and the resume stage is never ahead. */
  predicate Single(w: World) {
    (forall i: Stage :: w.inFlight[i] > 0 ==> w.record.state == Submitting(i) && w.inFlight[i] == 1)
    && (w.record.state != Failed && w.record.resume.Some? && w.record.resume.value.At? ==>
          w.record.resume.value.stage <= Behind(w.record.state) + 1)
    && (w.record.state != Failed && w.record.resume.Some? ==> w.record.resume.value.At?)
  }

  lemma StepKeepsSingle(w: World, e: Event)
    requires Single(w) && Timely(w, e)
    ensures Single(Step(w, e))
  {
  }

  lemma {:induction false} RunKeepsSingle(events: seq<Event>)
    requires TimelyRun(Initial(), events)
    ensures Single(Run(Initial(), events))
    decreases |events|
  {
    if events != [] {
      var init := events[..|events| - 1];
      RunKeepsSingle(init);
      StepKeepsSingle(Run(Initial(), init), events[|events| - 1]);
    }
  }

  /**
   After a timely run, a submitting record is left by no other timely write than that of the worker that claimed it,
   and by those requests from outside that move every batch.
   */
  lemma SubmittingIsLeftByItsClaimer(events: seq<Event>, e: Event)
    requires TimelyRun(Initial(), events) && Punctual(Run(Initial(), events), e)
    ensures var w := Run(Initial(), events);
            w.record.state.Submitting? ==>
              (Step(w, e).record != w.record
               <==> (e == Written(w.record.state.stage) && w.inFlight[w.record.state.stage] > 0) || Outside(w, e))
  {
    RunKeepsSingle(events);
  }

  predicate ReadyNoLater(state: State, mark: Mark, stage: Stage) {
    mark.At? && state == Ready(mark.stage) && mark.stage <= stage
  }

  /** A resume does not clear the resume stage: an exception later on is resumed there, and so at an earlier stage. */
  lemma ExceptionResumesAtTheOldStage(events: seq<Event>, s: State)
    requires TimelyRun(Initial(), events) && Run(Initial(), events).record.state == s && CanRaise(s)
    ensures var w := Run(Initial(), events);
            var again := Step(Step(w, Raises(s, false)), Resume);
            s in w.seen && (again.record.state != Failed <==> w.record.resume.Some?)
            && (w.record.resume.Some? ==> ReadyNoLater(again.record.state, w.record.resume.value, s.stage))
  {
    RunKeepsOrdered(events);
    RunKeepsSingle(events);
    RaisedResumes(Run(Initial(), events), s);
  }

  lemma RaisedResumes(w: World, s: State)
    requires Single(w) && w.record.state == s && s in w.seen && CanRaise(s)
    ensures var again := Step(Step(w, Raises(s, false)), Resume);
            (again.record.state != Failed <==> w.record.resume.Some?)
            && (w.record.resume.Some? ==> ReadyNoLater(again.record.state, w.record.resume.value, s.stage))
  {
  }

  // ---- a redone stage: a run ------------------------------------------------------------------------------------

  lemma {:induction false} RunBoth(w: World, some: seq<Event>, more: seq<Event>)
    ensures Run(w, some + more) == Run(Run(w, some), more)
    ensures TimelyRun(w, some) && TimelyRun(Run(w, some), more) ==> TimelyRun(w, some + more)
    decreases |more|
  {
    if more == [] {
      assert some + more == some;
    } else {
      RunBoth(w, some, more[..|more| - 1]);
      assert (some + more)[..|some + more| - 1] == some + more[..|more| - 1];
    }
  }

  lemma SubmitStage(w: World, i: Stage)
    requires w.record.state == Ready(i) && w.inFlight[i] == 0
    ensures TimelyRun(w, [Claim(i), Written(i)])
    ensures var after := Run(w, [Claim(i), Written(i)]);
            after.record == Record(Queued(i), if i == RESTORE then None else w.record.resume)
            && after.inFlight == w.inFlight
            && after.seen == w.seen + {Submitting(i), Queued(i)}
  {
    RunOfTwo(w, Claim(i), Written(i));
    ClaimThenWrite(w, i);
  }

  lemma ClaimThenWrite(w: World, i: Stage)
    requires w.record.state == Ready(i) && w.inFlight[i] == 0
    ensures var after := Step(Step(w, Claim(i)), Written(i));
            after.record == Record(Queued(i), if i == RESTORE then None else w.record.resume)
            && after.inFlight == w.inFlight
            && after.seen == w.seen + {Submitting(i), Queued(i)}
  {
    var claimed := Step(w, Claim(i));
    assert claimed.inFlight == Up(w.inFlight, i) && claimed.seen == w.seen + {Submitting(i)};
    assert Down(Up(w.inFlight, i), i) == w.inFlight;
  }

  lemma PassStage(w: World, i: Stage)
    requires w.record.state == Ready(i) && w.inFlight[i] == 0
    ensures TimelyRun(w, [Claim(i), Written(i)] + [Succeeds(i)])
    ensures var after := Run(w, [Claim(i), Written(i)] + [Succeeds(i)]);
            after.record == Record(Next(i), if i == RESTORE then None else w.record.resume)
            && after.inFlight == w.inFlight
  {
    SubmitStage(w, i);
    RunOfOne(Run(w, [Claim(i), Written(i)]), Succeeds(i));
    RunBoth(w, [Claim(i), Written(i)], [Succeeds(i)]);
  }

  lemma FailStage(w: World, i: Stage)
    requires w.record.state == Ready(i) && w.inFlight[i] == 0
    ensures TimelyRun(w, [Claim(i), Written(i)] + [Fails(Queued(i)), Resume])
    ensures var after := Run(w, [Claim(i), Written(i)] + [Fails(Queued(i)), Resume]);
            after.record == Record(Ready(i), Some(At(i))) && after.inFlight == w.inFlight
            && (i == ENCRYPTION ==> after.job == Linked)
  {
    SubmitStage(w, i);
    var queued := Run(w, [Claim(i), Written(i)]);
    RunOfTwo(queued, Fails(Queued(i)), Resume);
    RunBoth(w, [Claim(i), Written(i)], [Fails(Queued(i)), Resume]);
  }

  /** Restored, and synchronising resumed after its first attempt failed. */
  function SyncResumed(): seq<Event> {
    ([Claim(1), Written(1)] + [Succeeds(1)]) + ([Claim(2), Written(2)] + [Fails(Queued(2)), Resume])
  }

  /** Synchronised, and handed over to standardise. */
  function SyncPassed(): seq<Event> {
    ([Claim(2), Written(2)] + [Succeeds(2)]) + [Claim(3), Written(3)]
  }

  lemma SyncIsResumed()
    ensures TimelyRun(Initial(), SyncResumed())
    ensures var w := Run(Initial(), SyncResumed());
            w.record == Record(Ready(2), Some(At(2))) && w.inFlight == [0, 0, 0, 0, 0]
  {
    var restored := [Claim(1), Written(1)] + [Succeeds(1)];
    PassStage(Initial(), 1);
    FailStage(Run(Initial(), restored), 2);
    RunBoth(Initial(), restored, [Claim(2), Written(2)] + [Fails(Queued(2)), Resume]);
  }

  lemma SyncIsPassed(w: World)
    requires w.record == Record(Ready(2), Some(At(2))) && w.inFlight == [0, 0, 0, 0, 0]
    ensures TimelyRun(w, SyncPassed()) && Run(w, SyncPassed()).record == Record(Queued(3), Some(At(2)))
  {
    var synced := [Claim(2), Written(2)] + [Succeeds(2)];
    PassStage(w, 2);
    SubmitStage(Run(w, synced), 3);
    RunBoth(w, synced, [Claim(3), Written(3)]);
  }

  /**
   After a resume of the synchronising stage, an exception while standardising sends the batch back to
   synchronise.
   */
  lemma ExceptionRedoesAnEarlierStage()
    ensures TimelyRun(Initial(), SyncResumed() + SyncPassed())
    ensures var w := Run(Initial(), SyncResumed() + SyncPassed());
            w.record.state == Queued(3) && Step(Step(w, Raises(Queued(3), false)), Resume).record.state == Ready(2)
  {
    SyncIsResumed();
    SyncIsPassed(Run(Initial(), SyncResumed()));
    RunBoth(Initial(), SyncResumed(), SyncPassed());
    RunKeepsOrdered(SyncResumed() + SyncPassed());
    RaisedGoesBack(Run(Initial(), SyncResumed() + SyncPassed()));
  }

  lemma RaisedGoesBack(w: World)
    requires w.record == Record(Queued(3), Some(At(2))) && w.record.state in w.seen
    ensures Step(Step(w, Raises(Queued(3), false)), Resume).record.state == Ready(2)
  {
    assert Step(w, Raises(Queued(3), false)).record == Record(Failed, Some(At(2)));
  }

  // ---- who else moves a submission on --------------------------------------------------------------------------

  predicate StandardSeen(w: World) {
    Ready(STANDARD) in w.seen <==> Count(w.log, STANDARD - 1) > 0 || w.resumes[STANDARD] > 0
  }

  /** Which late snapshots a run can hold, by what has happened in it. */
  predicate SeenIff(w: World) {
    Ready(RESTORE) in w.seen
    && (forall j: Stage :: Queued(j) in w.seen <==> w.written[j] > 0)
    && StandardSeen(w)
    && (w.job != NoJob <==> w.written[ENCRYPTION] > 0)
  }

  lemma StepKeepsSeenIff(w: World, e: Event)
    requires SeenIff(w) && AllPaid(w)
    ensures SeenIff(Step(w, e))
  {
    QueuedSeenIff(w, e);
    StandardSeenIff(w, e);
  }

  lemma QueuedSeenIff(w: World, e: Event)
    requires SeenIff(w) && AllPaid(w)
    ensures forall j: Stage :: Queued(j) in Step(w, e).seen <==> Step(w, e).written[j] > 0
    ensures Step(w, e).job != NoJob <==> Step(w, e).written[ENCRYPTION] > 0
  {
  }

  lemma {:induction false} StandardSeenIff(w: World, e: Event)
    requires StandardSeen(w)
    ensures StandardSeen(Step(w, e))
  {
    match e
    case Succeeds(i) => SuccessSeenIff(w, i);
    case Activate(reading, records) => CountSnoc(w.log, ENCRYPTION, STANDARD - 1);
    case Resume => ResumeSeenIff(w);
    case _ => OtherSeenIff(w, e);
  }

  lemma {:induction false} SuccessSeenIff(w: World, i: Stage)
    requires StandardSeen(w)
    ensures StandardSeen(Step(w, Succeeds(i)))
  {
    if w.record.state == Queued(i) {
      CountSnoc(w.log, i, STANDARD - 1);
      var after := Step(w, Succeeds(i));
      assert after.log == w.log + [i] && after.resumes == w.resumes && after.seen == w.seen + {Next(i)};
    }
  }

  lemma {:induction false} ResumeSeenIff(w: World)
    requires StandardSeen(w)
    ensures StandardSeen(Step(w, Resume))
  {
    assert Step(w, Resume).log == w.log;
  }

  lemma {:induction false} OtherSeenIff(w: World, e: Event)
    requires StandardSeen(w) && !e.Succeeds? && !e.Activate? && !e.Resume?
    ensures StandardSeen(Step(w, e))
  {
    assert Step(w, e).log == w.log && Step(w, e).resumes == w.resumes;
  }

  lemma {:induction false} RunKeepsSeenIff(events: seq<Event>)
    ensures SeenIff(Run(Initial(), events))
    decreases |events|
  {
    if events != [] {
      var init := events[..|events| - 1];
      RunKeepsSeenIff(init);
      RunKeepsPaid(init, 1);
      RunKeepsPaid(init, 2);
      RunKeepsPaid(init, 3);
      RunKeepsPaid(init, 4);
      StepKeepsSeenIff(Run(Initial(), init), events[|events| - 1]);
    }
  }

  /** A worker may still hold this snapshot and mark the batch failed on the strength of it. */
  predicate FailsLate(w: World, s: State) {
    (s.Queued? && w.written[s.stage] > 0)
    || (s == Ready(STANDARD) && (Count(w.log, STANDARD - 1) > 0 || w.resumes[STANDARD] > 0))
  }

  predicate RaisesLate(w: World, s: State) {
    (s.Queued? && w.written[s.stage] > 0) || s == Ready(RESTORE)
  }

  /** The writes that take a batch out of the submission of stage `i`. */
  predicate Frees(w: World, i: Stage, e: Event) {
    match e
    case Written(j) => w.inFlight[j] > 0
    case Fails(s) => FailsLate(w, s)
    case Raises(s, _) => RaisesLate(w, s)
    case BackWrite => i != RESTORE && w.dispatching > 0
    case Activate(reading, records) => w.written[ENCRYPTION] > 0 && (reading == Bad || (reading == Good && records))
    case Match => true
    case _ => false
  }

  /**
   In every run, timely or not, a submitting record is left exactly by the write of a worker that claimed a stage,
   by a late failure or exception of a stage that was ever submitted, by a late one of a batch found ready to be
   restored or standardised, by a dispatch of the restore that fails when a later stage is submitting, by an
   activation request that finds the job of an earlier encryption ended, or by blueprint matching.
   */
  lemma SubmittingIsLeftIff(events: seq<Event>, e: Event)
    requires Run(Initial(), events).record.state.Submitting?
    ensures var w := Run(Initial(), events);
            Step(w, e).record.state != w.record.state <==> Frees(w, w.record.state.stage, e)
  {
    RunKeepsSeenIff(events);
  }

  /**
   A late failure frees a submission exactly if the stage had been submitted before: then a resume and a claim
   put two submissions of it under way at once.
   */
  lemma LateFailureFreesASubmission(events: seq<Event>, i: Stage)
    requires Run(Initial(), events).record.state == Submitting(i)
    ensures var w := Run(Initial(), events);
            var again := Run(w, [Fails(Queued(i)), Resume, Claim(i)]);
            (w.written[i] > 0 ==> again.record.state == Submitting(i) && again.claims[i] == w.claims[i] + 1
                                  && again.inFlight[i] == w.inFlight[i] + 1)
            && (w.written[i] == 0 ==> again == w)
  {
    var w := Run(Initial(), events);
    RunKeepsSeenIff(events);
    RunOfThree(w, Fails(Queued(i)), Resume, Claim(i));
  }

  lemma FailAndClaimAgain(w: World, i: Stage)
    requires Queued(i) in w.seen
    ensures var again := Run(w, [Fails(Queued(i)), Resume, Claim(i)]);
            again.record.state == Submitting(i) && Queued(i) in again.seen && again.inFlight[i] == w.inFlight[i] + 1
  {
    RunOfThree(w, Fails(Queued(i)), Resume, Claim(i));
  }

  /** Two workers see the same failure; the slower one writes it after the retry is claimed. */
  lemma SlowFailureSubmitsTwice()
    ensures var retry := [Fails(Queued(1)), Resume, Claim(1)];
            var w := Run(Initial(), [Claim(1), Written(1)] + [Dispatched] + retry + retry);
            w.record.state == Submitting(1) && w.inFlight[1] == 2
  {
    var retry := [Fails(Queued(1)), Resume, Claim(1)];
    var sent := [Claim(1), Written(1)];
    SubmitStage(Initial(), 1);
    RunBoth(Initial(), sent, [Dispatched]);
    RunOfOne(Run(Initial(), sent), Dispatched);
    RunBoth(Initial(), sent + [Dispatched], retry);
    FailAndClaimAgain(Run(Initial(), sent + [Dispatched]), 1);
    RunBoth(Initial(), sent + [Dispatched] + retry, retry);
    FailAndClaimAgain(Run(Initial(), sent + [Dispatched] + retry), 1);
  }

  // ---- an encryption of unknown outcome, ended by a request ----------------------------------------------------

  /** The first three stages done, the first encryption failed, and the submission of the second raised. */
  function EncryptionUnknown(): seq<Event> {
    (([Claim(1), Written(1)] + [Succeeds(1)]) + ([Claim(2), Written(2)] + [Succeeds(2)]))
    + (([Claim(3), Written(3)] + [Succeeds(3)]) + ([Claim(4), Written(4)] + [Fails(Queued(4)), Resume]))
    + [Claim(4), Unknown(4)]
  }

  lemma PassTwoStages(w: World)
    requires w.record.state == Ready(1) && w.inFlight == [0, 0, 0, 0, 0]
    ensures var events := ([Claim(1), Written(1)] + [Succeeds(1)]) + ([Claim(2), Written(2)] + [Succeeds(2)]);
            TimelyRun(w, events) && Run(w, events).record == Record(Ready(3), None)
            && Run(w, events).inFlight == w.inFlight
  {
    var restored := [Claim(1), Written(1)] + [Succeeds(1)];
    PassStage(w, 1);
    PassStage(Run(w, restored), 2);
    RunBoth(w, restored, [Claim(2), Written(2)] + [Succeeds(2)]);
  }

  lemma FailEncryption(w: World)
    requires w.record.state == Ready(3) && w.inFlight == [0, 0, 0, 0, 0]
    ensures var events :=
              ([Claim(3), Written(3)] + [Succeeds(3)]) + ([Claim(4), Written(4)] + [Fails(Queued(4)), Resume]);
            TimelyRun(w, events) && Run(w, events).record == Record(Ready(4), Some(At(4)))
            && Run(w, events).inFlight == w.inFlight
            && Run(w, events).job != NoJob
  {
    var standard := [Claim(3), Written(3)] + [Succeeds(3)];
    PassStage(w, 3);
    FailStage(Run(w, standard), 4);
    RunBoth(w, standard, [Claim(4), Written(4)] + [Fails(Queued(4)), Resume]);
  }

  lemma ClaimedAndUnknown(w: World)
    requires w.record.state == Ready(4) && w.inFlight == [0, 0, 0, 0, 0] && w.job != NoJob
    ensures TimelyRun(w, [Claim(4), Unknown(4)])
    ensures var after := Run(w, [Claim(4), Unknown(4)]);
            after.record.state == Submitting(4) && NoneInFlight(after)
            && Step(after, Activate(Bad, true)).record == Record(Failed, Some(Unresumable))
  {
    RunOfTwo(w, Claim(4), Unknown(4));
  }

  /**
   In a timely run the second encryption may have been submitted; activating reads the failed first job and
   fails the batch.
   */
  lemma ActivationEndsAnUnknownSubmission()
    ensures TimelyRun(Initial(), EncryptionUnknown())
    ensures var w := Run(Initial(), EncryptionUnknown());
            w.record.state == Submitting(4) && NoneInFlight(w)
            && Step(w, Activate(Bad, true)).record == Record(Failed, Some(Unresumable))
  {
    var two := ([Claim(1), Written(1)] + [Succeeds(1)]) + ([Claim(2), Written(2)] + [Succeeds(2)]);
    var four := ([Claim(3), Written(3)] + [Succeeds(3)]) + ([Claim(4), Written(4)] + [Fails(Queued(4)), Resume]);
    PassTwoStages(Initial());
    FailEncryption(Run(Initial(), two));
    RunBoth(Initial(), two, four);
    ClaimedAndUnknown(Run(Initial(), two + four));
    RunBoth(Initial(), two + four, [Claim(4), Unknown(4)]);
  }

  // ---- the record, updated in place -------------------------------------------------------------

  /** What one worker meets on its way: the source or the run of the stage, and how submitting and recording go. */
  datatype Look = Look(reading: Reading, sends: bool, dispatches: bool, records: bool)

  /** The writes of one worker that nobody disturbs. */
  function Advances(s: State, l: Look): seq<Event> {
    match s
    case Ready(i) =>
      if i == RESTORE && l.reading == Open then []
      else if i == RESTORE && l.reading != Good then [Raises(s, false)]
      else if i == STANDARD && l.reading != Good then [Fails(s)]
      else if !l.sends then [Claim(i), Unknown(i)]
      else if i != RESTORE then [Claim(i), Written(i)]
      else [Claim(i), Written(i), if l.dispatches then Dispatched else BackWrite]
    case Queued(i) =>
      (match l.reading
       case Absent => [Raises(s, false)]
       case Open => []
       case Bad => [Fails(s)]
       case Good => if l.records then [Succeeds(i)] else [RecordFails(i)])
    case _ => []
  }

  /** What any write keeps, and with `timely` what a timely one keeps too. */
  ghost predicate Kept(w: World, after: World, timely: bool) {
    (AllPaid(w) ==> AllPaid(after)) && (Ordered(w) ==> Ordered(after)) && (timely && Single(w) ==> Single(after))
  }

  lemma StepKept(w: World, e: Event)
    ensures Kept(w, Step(w, e), Timely(w, e))
  {
    if AllPaid(w) {
      StepKeepsPaid(w, e, 1);
      StepKeepsPaid(w, e, 2);
      StepKeepsPaid(w, e, 3);
      StepKeepsPaid(w, e, 4);
    }
    if Ordered(w) { StepKeepsOrdered(w, e); }
    if Timely(w, e) && Single(w) { StepKeepsSingle(w, e); }
  }

  lemma {:induction false} RunKept(w: World, events: seq<Event>)
    requires TimelyRun(w, events)
    ensures Kept(w, Run(w, events), true)
    decreases |events|
  {
    if events != [] {
      var init := events[..|events| - 1];
      RunKept(w, init);
      StepKept(Run(w, init), events[|events| - 1]);
    }
  }

  /** What an undisturbed worker writes is timely. */
  lemma AdvancesAreTimely(w: World, l: Look)
    ensures TimelyRun(w, Advances(w.record.state, l))
  {
    var s := w.record.state;
    match s
    case Ready(i) =>
      RunOfOne(w, Raises(s, false));
      RunOfOne(w, Fails(s));
      RunOfTwo(w, Claim(i), Unknown(i));
      RunOfTwo(w, Claim(i), Written(i));
      RunOfThree(w, Claim(i), Written(i), if l.dispatches then Dispatched else BackWrite);
    case Queued(i) =>
      RunOfOne(w, Raises(s, false));
      RunOfOne(w, Fails(s));
      RunOfOne(w, Succeeds(i));
      RunOfOne(w, RecordFails(i));
    case _ =>
  }

  class AssistantBatch {
    var state: State
    var resume: Option<Mark>
    ghost var world: World

    ghost predicate Valid()
      reads this
    {
      world.record == Record(state, resume) && state in world.seen
    }

    constructor ()
      ensures Valid() && world == Initial() && AllPaid(world) && Ordered(world) && Single(world)
    {
      state, resume, world := Ready(RESTORE), None, Initial();
    }

    /** The compare-and-set of a submission. */
    method ClaimStage(i: Stage) returns (claimed: bool)
      requires Valid()
      modifies this
      ensures Valid() && world == Step(old(world), Claim(i))
      ensures (claimed <==> old(state) == Ready(i)) && Kept(old(world), world, true)
    {
      StepKept(world, Claim(i));
      claimed := state == Ready(i);
      if claimed { state := Submitting(i); }
      world := Step(world, Claim(i));
    }

    method Submit(i: Stage, l: Look)
      requires Valid() && state == Ready(i)
      requires (i == RESTORE || i == STANDARD) ==> l.reading == Good
      modifies this
      ensures Valid() && world == Run(old(world), Advances(old(state), l)) && Kept(old(world), world, true)
      ensures state == if l.sends && (i == RESTORE ==> l.dispatches) then Queued(i) else Submitting(i)
    {
      AdvancesAreTimely(world, l);
      RunKept(world, Advances(state, l));
      ghost var was := world;
      var claimed := ClaimStage(i);
      ghost var mine := world;
      if l.sends {
        state := Queued(i);
        world := Step(world, Written(i));
        if i == RESTORE {
          resume := None;
          ghost var queued := world;
          if l.dispatches {
            world := Step(world, Dispatched);
          } else {
            state := Submitting(RESTORE);
            world := Step(world, BackWrite);
          }
          RunOfThree(was, Claim(i), Written(i), if l.dispatches then Dispatched else BackWrite);
        } else {
          RunOfTwo(was, Claim(i), Written(i));
        }
      } else {
        world := Step(world, Unknown(i));
        RunOfTwo(was, Claim(i), Unknown(i));
      }
    }

    method Advance(l: Look)
      requires Valid()
      modifies this
      ensures Valid() && world == Run(old(world), Advances(old(state), l)) && Kept(old(world), world, true)
      ensures old(state).Queued? && l.reading == Good && l.records ==>
                state == (if old(state).stage < 4 then Ready(old(state).stage + 1) else Completed)
                && resume == old(resume) && world.log == old(world.log) + [old(state).stage]
      ensures old(state).Queued? && l.reading == Bad ==> state == Failed && resume == Some(At(old(state).stage))
      ensures old(state).Queued? && (l.reading == Absent || (l.reading == Good && !l.records)) ==>
                state == Failed && resume == if old(resume).Some? then old(resume) else Some(Unresumable)
      ensures old(state).Queued? && l.reading == Open ==> state == old(state) && resume == old(resume)
      ensures old(state).Ready? && (old(state).stage == 1 || old(state).stage == 3 ==> l.reading == Good) ==>
                state == if l.sends && (old(state).stage == 1 ==> l.dispatches) then Queued(old(state).stage)
                         else Submitting(old(state).stage)
      ensures !old(state).Ready? && !old(state).Queued? ==> world == old(world)
    {
      AdvancesAreTimely(world, l);
      RunKept(world, Advances(state, l));
      match state {
        case Submitting(_) =>
        case Completed =>
        case Failed =>
        case Matched =>
        case Ready(i) =>
          if i == RESTORE && l.reading == Open { return; }
          if i == RESTORE && l.reading != Good { Fail(false, i); return; }
          if i == STANDARD && l.reading != Good { Fail(true, i); return; }
          Submit(i, l);
        case Queued(i) =>
          if l.reading == Absent { Fail(false, i); return; }
          if l.reading == Open { return; }
          if l.reading == Bad { Fail(true, i); return; }
          if l.records {
            world := Step(world, Succeeds(i));
            state := if i == ENCRYPTION then Completed else Ready(i + 1);
            RunOfOne(old(world), Succeeds(i));
          } else {
            world := Step(world, RecordFails(i));
            if resume.None? { resume := Some(Unresumable); }
            state := Failed;
            RunOfOne(old(world), RecordFails(i));
          }
      }
    }

    /** The stage is known to have failed, or the step raised and the loop marks the batch. */
    method Fail(known: bool, i: Stage)
      requires Valid() && (if known then CanFail(state) else CanRaise(state)) && state.stage == i
      modifies this
      ensures Valid() && world == Run(old(world), [if known then Fails(old(state)) else Raises(old(state), false)])
      ensures Kept(old(world), world, true)
    {
      ghost var e := if known then Fails(state) else Raises(state, false);
      StepKept(world, e);
      world := Step(world, e);
      if known { resume := Some(At(i)); } else if resume.None? { resume := Some(Unresumable); }
      state := Failed;
      RunOfOne(old(world), e);
    }

    method ResumeFailed() returns (accepted: bool)
      requires Valid()
      modifies this
      ensures Valid() && world == Step(old(world), Resume) && Kept(old(world), world, true)
      ensures accepted <==> old(state) == Failed && old(resume).Some? && old(resume).value.At?
    {
      StepKept(world, Resume);
      accepted := state == Failed && resume.Some? && resume.value.At?;
      world := Step(world, Resume);
      if accepted { state := Ready(resume.value.stage); }
    }
  }

  lemma RunSnoc(w: World, events: seq<Event>, e: Event)
    ensures Run(w, events + [e]) == Step(Run(w, events), e)
    ensures TimelyRun(w, events + [e]) <==> TimelyRun(w, events) && Timely(Run(w, events), e)
  {
    assert (events + [e])[..|events|] == events;
  }

  lemma RunOfOne(w: World, e: Event)
    ensures Run(w, [e]) == Step(w, e) && (TimelyRun(w, [e]) <==> Timely(w, e))
  {
    assert [e][..0] == [];
  }

  lemma RunOfTwo(w: World, e: Event, f: Event)
    ensures Run(w, [e, f]) == Step(Step(w, e), f) && (TimelyRun(w, [e, f]) <==> Timely(w, e) && Timely(Step(w, e), f))
  {
    RunSnoc(w, [e], f);
    RunOfOne(w, e);
    assert [e] + [f] == [e, f];
  }

  lemma RunOfThree(w: World, e: Event, f: Event, g: Event)
    ensures Run(w, [e, f, g]) == Step(Step(Step(w, e), f), g)
    ensures TimelyRun(w, [e, f, g]) <==> Timely(w, e) && Timely(Step(w, e), f) && Timely(Step(Step(w, e), f), g)
  {
    RunSnoc(w, [e, f], g);
    RunOfTwo(w, e, f);
    assert [e, f] + [g] == [e, f, g];
  }
}
