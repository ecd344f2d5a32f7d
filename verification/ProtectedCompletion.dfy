/**
 Which batches are completed, and which can be.

 A completed batch was restored, synchronised and standardised, in this order and each with
 a reading that said so.  A batch can still be completed exactly if a job of it was ever
 submitted, or its stage or its resume stage is one that a step or a request leads on from.
 */
module ProtectedCompletion {
  import opened Basics
  import opened ProtectedFlow
  import opened ProtectedRecovery

  // ---- nothing is left out --------------------------------------------------------------------------

  /** Event `n` is a step of the loop that reads the run of the part as good and records what it brought. */
  predicate Passes(encryptFirst: bool, events: seq<Event>, n: int, x: Part) {
    0 <= n < |events| && events[n].Advance?
    && (var w, l := Run(Created(encryptFirst), events[..n]), events[n].look;
        In(w.batch, x) && l.newId !in w.jobs && l.reading == Good
        && if x == RestorePart then l.schema else !l.recordFails)
  }

  /** How many of the three parts have been passed, each after the one before it. */
  function Milestone(encryptFirst: bool, events: seq<Event>): (m: nat)
    ensures m <= 3
    decreases |events|
  {
    if events == [] then 0 else
      var n := |events| - 1;
      var m := Milestone(encryptFirst, events[..n]);
      if (m == 0 && Passes(encryptFirst, events, n, RestorePart))
        || (m == 1 && Passes(encryptFirst, events, n, SyncPart))
         || (m == 2 && Passes(encryptFirst, events, n, StandardPart))
      then m + 1 else m
  }

  /** With `m` parts passed the batch may stand in this stage. */
  predicate Fits(encryptFirst: bool, s: Stage, m: nat) {
    (s == Restored || s == SyncQueued || s == Syncing || s == RawReady ==> 1 <= m)
    && (s == SecurityAccessActive || s == StandardizeQueued || s == Standardizing ==> 2 <= m)
    && (s == EncryptionReady || s == Encrypting ==> (if encryptFirst then 2 else 3) <= m)
    && (s == StandardReady || s == Completed ==> 3 <= m)
  }

  /** Nothing the batch records is ahead of the parts that have been passed. */
  predicate NotAhead(b: Batch, m: nat) {
    Fits(b.encryptFirst, b.stage, m) && (b.resume.Some? ==> Fits(b.encryptFirst, b.resume.value, m))
    && (b.restoredTarget || b.syncRun.Some? ==> 1 <= m) && (b.standardRun.Some? ==> 2 <= m)
    && (b.planned || b.job.Some? ==> (if b.encryptFirst then 2 else 3) <= m)
  }

  lemma RestoreIsNotAhead(b: Batch, p: Pipeline, l: Look, m: nat)
    requires NotAhead(b, m)
    ensures NotAhead(AdvanceRestore(b, p, l).batch, if l.reading == Good && l.schema && m == 0 then 1 else m)
  {
    match l.reading
    case Absent | Waiting | Busy =>
      assert AdvanceRestore(b, p, l).batch == b.(stage := AdvanceRestore(b, p, l).batch.stage);
    case Bad =>
    case Good => assert l.schema ==> AdvanceRestore(b, p, l).batch.resume == b.resume;
  }

  lemma SyncIsNotAhead(b: Batch, p: Pipeline, l: Look, m: nat)
    requires NotAhead(b, m) && b.syncRun.Some?
    ensures NotAhead(AdvanceSync(b, p, l).batch, if l.reading == Good && !l.recordFails && m == 1 then 2 else m)
  {
    match l.reading
    case Absent | Waiting | Busy => assert AdvanceSync(b, p, l).batch == b.(stage := AdvanceSync(b, p, l).batch.stage);
    case Bad =>
    case Good =>
  }

  lemma StandardIsNotAhead(b: Batch, p: Pipeline, l: Look, m: nat)
    requires NotAhead(b, m) && b.standardRun.Some?
    ensures NotAhead(AdvanceStandard(b, p, l).batch, if l.reading == Good && !l.recordFails && m == 2 then 3 else m)
  {
    match l.reading
    case Absent | Waiting | Busy =>
      assert AdvanceStandard(b, p, l).batch == b.(stage := AdvanceStandard(b, p, l).batch.stage);
    case Bad =>
    case Good =>
  }

  lemma EncryptionIsNotAhead(b: Batch, p: Pipeline, l: Look, jobs: map<nat, JobState>, m: nat)
    requires NotAhead(b, m)
    ensures NotAhead(CompleteEncryption(b, p, l, jobs).batch, m)
  {
  }

  lemma HandledIsNotAhead(t: Tried, m: nat)
    requires NotAhead(t.batch, m)
    ensures NotAhead(Handled(t), m)
  {
  }

  predicate PassesNow(b: Batch, l: Look, m: nat) {
    l.reading == Good
    && ((m == 0 && In(b, RestorePart) && l.schema) || (m == 1 && In(b, SyncPart) && !l.recordFails)
        || (m == 2 && In(b, StandardPart) && !l.recordFails))
  }

  /** The loop goes ahead by one part only, and only on a good reading of it. */
  lemma AdvanceIsNotAhead(b: Batch, p: Pipeline, l: Look, jobs: map<nat, JobState>, m: nat)
    requires NotAhead(b, m) && m <= 3
    ensures NotAhead(AfterAdvance(b, p, l, jobs), if PassesNow(b, l, m) then m + 1 else m)
  {
    if In(b, RestorePart) || In(b, SyncPart) || In(b, StandardPart) {
      PartIsNotAhead(b, p, l, jobs, m);
    } else {
      EncryptionIsNotAhead(b, p, l, jobs, m);
      assert NotAhead(AdvanceOne(b, p, l, jobs).batch, m);
    }
    HandledIsNotAhead(AdvanceOne(b, p, l, jobs), if PassesNow(b, l, m) then m + 1 else m);
  }

  lemma PartIsNotAhead(b: Batch, p: Pipeline, l: Look, jobs: map<nat, JobState>, m: nat)
    requires NotAhead(b, m) && m <= 3 && (In(b, RestorePart) || In(b, SyncPart) || In(b, StandardPart))
    ensures NotAhead(AdvanceOne(b, p, l, jobs).batch, if PassesNow(b, l, m) then m + 1 else m)
  {
    var t := AdvanceOne(b, p, l, jobs);
    if In(b, RestorePart) {
      RestoreIsNotAhead(b, p, l, m);
      assert t == AdvanceRestore(b, p, l);
    } else if In(b, SyncPart) {
      SyncIsNotAhead(b, p, l, m);
      assert t == AdvanceSync(b, p, l);
    } else {
      StandardIsNotAhead(b, p, l, m);
      assert t == AdvanceStandard(b, p, l);
    }
  }

  lemma ResumeIsNotAhead(b: Batch, p: Pipeline, l: Look, m: nat)
    requires NotAhead(b, m)
    ensures NotAhead(AfterResume(b, p, l), m)
  {
    var from := if b.resume.Some? then b.resume.value else b.stage;
    assert Fits(b.encryptFirst, from, m);
    assert AfterResume(b, p, l) == b || AfterResume(b, p, l).resume.None?;
  }

  lemma StepIsNotAhead(w: World, e: Event, m: nat)
    requires NotAhead(w.batch, m) && !e.Advance?
    ensures NotAhead(Step(w, e).batch, m)
  {
    match e
    case Resume(p, l) => ResumeIsNotAhead(w.batch, p, l, m);
    case Activate(p, l) => EncryptionIsNotAhead(w.batch, p, l, w.jobs, m);
    case _ =>
  }

  lemma StepGoesAhead(w: World, e: Event, m: nat)
    requires NotAhead(w.batch, m) && m <= 3
    ensures NotAhead(Step(w, e).batch,
                     if e.Advance? && e.look.newId !in w.jobs && PassesNow(w.batch, e.look, m) then m + 1 else m)
  {
    if !e.Advance? {
      StepIsNotAhead(w, e, m);
    } else if e.look.newId !in w.jobs {
      AdvanceIsNotAhead(w.batch, e.pipeline, e.look, w.jobs, m);
    }
  }

  lemma {:induction false} RunIsNotAhead(encryptFirst: bool, events: seq<Event>)
    ensures NotAhead(Run(Created(encryptFirst), events).batch, Milestone(encryptFirst, events))
    decreases |events|
  {
    if events != [] {
      var n := |events| - 1;
      RunIsNotAhead(encryptFirst, events[..n]);
      StepGoesAhead(Run(Created(encryptFirst), events[..n]), events[n], Milestone(encryptFirst, events[..n]));
    }
  }

  lemma {:induction false} MilestonesHappened(encryptFirst: bool, events: seq<Event>, m: nat) returns (n: nat)
    requires 1 <= m <= Milestone(encryptFirst, events)
    ensures n < |events| && Milestone(encryptFirst, events[..n]) >= m - 1
    ensures Passes(encryptFirst, events, n, match m case 1 => RestorePart case 2 => SyncPart case _ => StandardPart)
    decreases |events|
  {
    var last := |events| - 1;
    if m <= Milestone(encryptFirst, events[..last]) {
      n := MilestonesHappened(encryptFirst, events[..last], m);
      assert events[..last][..n] == events[..n];
    } else {
      n := last;
    }
  }

  predicate PassedInOrder(encryptFirst: bool, events: seq<Event>, i: int, j: int, k: int) {
    i < j < k && Passes(encryptFirst, events, i, RestorePart) && Passes(encryptFirst, events, j, SyncPart)
    && Passes(encryptFirst, events, k, StandardPart)
  }

  lemma PassedEarlier(encryptFirst: bool, events: seq<Event>, k: nat, n: nat, x: Part)
    requires k <= |events| && Passes(encryptFirst, events[..k], n, x)
    ensures n < k && Passes(encryptFirst, events, n, x)
  {
    assert events[..k][..n] == events[..n];
  }

  lemma AllMilestonesInOrder(encryptFirst: bool, events: seq<Event>)
    requires Milestone(encryptFirst, events) == 3
    ensures exists i, j, k :: PassedInOrder(encryptFirst, events, i, j, k)
  {
    var k := MilestonesHappened(encryptFirst, events, 3);
    var j := MilestonesHappened(encryptFirst, events[..k], 2);
    var i := MilestonesHappened(encryptFirst, events[..k][..j], 1);
    PassedEarlier(encryptFirst, events[..k], j, i, RestorePart);
    PassedEarlier(encryptFirst, events, k, i, RestorePart);
    PassedEarlier(encryptFirst, events, k, j, SyncPart);
    assert PassedInOrder(encryptFirst, events, i, j, k);
  }

  /** Event `n` reports the success of a job that was submitted before. */
  predicate JobSucceeds(encryptFirst: bool, events: seq<Event>, n: int) {
    0 <= n < |events| && events[n].JobEnds? && events[n].ok
    && events[n].id in Run(Created(encryptFirst), events[..n]).jobs
  }

  lemma {:induction false} EncryptedByAJob(encryptFirst: bool, events: seq<Event>) returns (n: nat)
    requires Run(Created(encryptFirst), events).encrypted
    ensures n < |events| && JobSucceeds(encryptFirst, events, n)
    decreases |events|
  {
    var last := |events| - 1;
    if Run(Created(encryptFirst), events[..last]).encrypted {
      n := EncryptedByAJob(encryptFirst, events[..last]);
      assert events[..last][..n] == events[..n];
    } else {
      n := last;
    }
  }

  /**
   Whatever fails, is resumed, matched, activated or planned: a batch is completed only after its restore, then its
   synchronisation and then its standardising were read as good, and a protected one only after it was encrypted.
   */
  lemma CompletedWentThroughAll(encryptFirst: bool, events: seq<Event>)
    requires Run(Created(encryptFirst), events).batch.stage == Completed
    ensures exists i, j, k :: PassedInOrder(encryptFirst, events, i, j, k)
    ensures encryptFirst ==> exists n :: JobSucceeds(encryptFirst, events, n)
  {
    RunIsNotAhead(encryptFirst, events);
    AllMilestonesInOrder(encryptFirst, events);
    if encryptFirst {
      EncryptsBeforeStandardising(events);
      var n := EncryptedByAJob(encryptFirst, events);
    }
  }

  // ---- what can still be completed ------------------------------------------------------------------

  /** A stage from which the loop or a request leads on. */
  predicate LeadsOn(s: Stage) {
    s !in {Restored, AssetRegistered, RawReady, SecurityAccessActive, Failed, Blocked, PathMatched,
           AwaitingConfirmation}
  }

  predicate Alive(b: Batch) {
    b.job.Some? || LeadsOn(b.stage) || (b.resume.Some? && LeadsOn(b.resume.value))
  }

  lemma ClosedIsNotAdvanced(b: Batch, p: Pipeline, l: Look, jobs: map<nat, JobState>)
    requires !Alive(b)
    ensures AfterAdvance(b, p, l, jobs) == b
  {
    StaysIffStuck(b);
    assert Stuck(b) && Stays(b, p, l, jobs);
  }

  lemma ClosedStaysClosed(w: World, e: Event)
    requires !Alive(w.batch)
    ensures !Alive(Step(w, e).batch)
  {
    match e
    case Advance(p, l) => ClosedIsNotAdvanced(w.batch, p, l, w.jobs);
    case Resume(p, l) => assert AfterResume(w.batch, p, l).job.None?;
    case _ =>
  }

  lemma {:induction false} ClosedIsNeverCompleted(w: World, events: seq<Event>)
    requires !Alive(w.batch)
    ensures !Alive(Run(w, events).batch)
    decreases |events|
  {
    if events != [] {
      ClosedIsNeverCompleted(w, events[..|events| - 1]);
      ClosedStaysClosed(Run(w, events[..|events| - 1]), events[|events| - 1]);
    }
  }

  /** What the records of a batch owe to its stage, or to the stage it resumes at. */
  predicate Backed(b: Batch, s: Stage) {
    (s == RestoreQueued || s == Restoring ==> b.restoreTask.Some?)
    && (s == SyncQueued || s == Syncing ==> b.syncRun.Some? && b.restoredTarget)
    && (s == StandardizeQueued || s == Standardizing ==> b.standardRun.Some?)
    && (s == EncryptionReady ==> b.planned) && (s == Encrypting ==> b.job.Some?)
    && (s == Stabilizing || s == Discovered ==> b.resume.None?)
  }

  predicate BatchBacked(b: Batch) {
    Backed(b, b.stage) && (b.resume.Some? ==> Backed(b, b.resume.value)) && (b.job.Some? ==> b.planned)
  }

  lemma RestoreKeepsBacked(b: Batch, p: Pipeline, l: Look)
    requires BatchBacked(b) && b.restoreTask.Some?
    ensures BatchBacked(AdvanceRestore(b, p, l).batch)
  {
    match l.reading
    case Absent | Waiting | Busy =>
      assert AdvanceRestore(b, p, l).batch == b.(stage := AdvanceRestore(b, p, l).batch.stage);
    case Bad =>
    case Good =>
  }

  lemma SyncKeepsBacked(b: Batch, p: Pipeline, l: Look)
    requires BatchBacked(b) && In(b, SyncPart)
    ensures BatchBacked(AdvanceSync(b, p, l).batch)
  {
    match l.reading
    case Absent | Waiting | Busy => assert AdvanceSync(b, p, l).batch == b.(stage := AdvanceSync(b, p, l).batch.stage);
    case Bad =>
    case Good =>
  }

  lemma StandardKeepsBacked(b: Batch, p: Pipeline, l: Look)
    requires BatchBacked(b) && In(b, StandardPart)
    ensures BatchBacked(AdvanceStandard(b, p, l).batch)
  {
    match l.reading
    case Absent | Waiting | Busy =>
      assert AdvanceStandard(b, p, l).batch == b.(stage := AdvanceStandard(b, p, l).batch.stage);
    case Bad =>
    case Good => assert AdvanceStandard(b, p, l).batch.job == b.job && AdvanceStandard(b, p, l).batch.standardRun.Some?;
  }

  lemma EncryptionKeepsBacked(b: Batch, p: Pipeline, l: Look, jobs: map<nat, JobState>)
    requires BatchBacked(b)
    ensures BatchBacked(CompleteEncryption(b, p, l, jobs).batch) && BatchBacked(SubmitEncryption(b, l).batch)
  {
  }

  lemma ResumeKeepsBacked(b: Batch, p: Pipeline, l: Look)
    requires BatchBacked(b)
    ensures BatchBacked(AfterResume(b, p, l))
  {
    var from := if b.resume.Some? then b.resume.value else b.stage;
    assert Backed(b, from);
  }

  lemma PartKeepsBacked(b: Batch, p: Pipeline, l: Look, jobs: map<nat, JobState>)
    requires BatchBacked(b) && (In(b, RestorePart) || In(b, SyncPart) || In(b, StandardPart))
    ensures BatchBacked(AdvanceOne(b, p, l, jobs).batch)
  {
    var t := AdvanceOne(b, p, l, jobs);
    if In(b, RestorePart) {
      RestoreKeepsBacked(b, p, l);
      assert t == AdvanceRestore(b, p, l);
    } else if In(b, SyncPart) {
      SyncKeepsBacked(b, p, l);
      assert t == AdvanceSync(b, p, l);
    } else {
      StandardKeepsBacked(b, p, l);
      assert t == AdvanceStandard(b, p, l);
    }
  }

  predicate Begun(s: Stage) {
    s != Stabilizing && s != Discovered
  }

  lemma PartsStayBegun(b: Batch, p: Pipeline, l: Look)
    requires Begun(b.stage)
    ensures Begun(AdvanceRestore(b, p, l).batch.stage)
    ensures Begun(AdvanceSync(b, p, l).batch.stage)
    ensures Begun(AdvanceStandard(b, p, l).batch.stage)
  {
  }

  lemma EncryptionStaysBegun(b: Batch, p: Pipeline, l: Look, jobs: map<nat, JobState>)
    requires Begun(b.stage)
    ensures Begun(SubmitEncryption(b, l).batch.stage) && Begun(CompleteEncryption(b, p, l, jobs).batch.stage)
  {
  }

  /** Only the two stages before a batch has begun have no step that could raise. */
  lemma NewBatchDoesNotRaise(b: Batch, p: Pipeline, l: Look, jobs: map<nat, JobState>)
    ensures AdvanceOne(b, p, l, jobs).raised ==> Begun(AdvanceOne(b, p, l, jobs).batch.stage)
  {
    if Begun(b.stage) {
      PartsStayBegun(b, p, l);
      EncryptionStaysBegun(b, p, l, jobs);
    }
  }

  lemma AdvanceKeepsBacked(b: Batch, p: Pipeline, l: Look, jobs: map<nat, JobState>)
    requires BatchBacked(b)
    ensures BatchBacked(AfterAdvance(b, p, l, jobs))
  {
    if In(b, RestorePart) || In(b, SyncPart) || In(b, StandardPart) {
      PartKeepsBacked(b, p, l, jobs);
    } else {
      EncryptionKeepsBacked(b, p, l, jobs);
      assert BatchBacked(AdvanceOne(b, p, l, jobs).batch);
    }
    NewBatchDoesNotRaise(b, p, l, jobs);
    HandledKeepsBacked(AdvanceOne(b, p, l, jobs));
  }

  lemma HandledKeepsBacked(t: Tried)
    requires BatchBacked(t.batch) && (t.raised ==> Begun(t.batch.stage))
    ensures BatchBacked(Handled(t))
  {
  }

  lemma StepKeepsBacked(w: World, e: Event)
    requires BatchBacked(w.batch)
    ensures BatchBacked(Step(w, e).batch)
  {
    match e
    case Advance(p, l) => AdvanceKeepsBacked(w.batch, p, l, w.jobs);
    case Resume(p, l) => ResumeKeepsBacked(w.batch, p, l);
    case Activate(p, l) => EncryptionKeepsBacked(w.batch, p, l, w.jobs);
    case Submit(p, l) => EncryptionKeepsBacked(w.batch, p, l, w.jobs);
    case _ =>
  }

  lemma {:induction false} RunIsBacked(encryptFirst: bool, events: seq<Event>)
    ensures BatchBacked(Run(Created(encryptFirst), events).batch)
    decreases |events|
  {
    if events != [] {
      RunIsBacked(encryptFirst, events[..|events| - 1]);
      StepKeepsBacked(Run(Created(encryptFirst), events[..|events| - 1]), events[|events| - 1]);
    }
  }

  ghost predicate CanComplete(w: World) {
    exists more :: Run(w, more).batch.stage == Completed
  }

  lemma {:induction false} RunFrom(w: World, e: Event, more: seq<Event>)
    ensures Run(w, [e] + more) == Run(Step(w, e), more)
    decreases |more|
  {
    if more == [] {
      assert [e] + more == [e] && [e][..0] == [];
    } else {
      RunFrom(w, e, more[..|more| - 1]);
      assert ([e] + more)[..|more|] == [e] + more[..|more| - 1];
    }
  }

  lemma StepLeadsOn(w: World, e: Event)
    requires CanComplete(Step(w, e))
    ensures CanComplete(w)
  {
    var more :| Run(Step(w, e), more).batch.stage == Completed;
    RunFrom(w, e, more);
  }

  lemma CompletedCan(w: World)
    requires w.batch.stage == Completed
    ensures CanComplete(w)
  {
    var none: seq<Event> := [];
    assert Run(w, none).batch.stage == Completed;
  }

  lemma {:induction false} UnusedId(ids: set<nat>) returns (id: nat)
    ensures forall n: nat :: n >= id ==> n !in ids
  {
    if ids == {} {
      id := 0;
    } else {
      var n :| n in ids;
      var rest := UnusedId(ids - {n});
      id := if n < rest then rest else n + 1;
      assert forall m: nat :: m in ids ==> m == n || m in ids - {n};
    }
  }

  /**
   Everything goes well: nothing raises, every node and workflow is there, one table is to be encrypted on
   request.
   */
  function Fine(id: nat): Look { Look(Good, false, false, id, true, 0, true) }

  const FULL: Pipeline := Pipeline(true, true, false, false)

  lemma StandardReadyCan(w: World)
    requires w.batch.stage == StandardReady
    ensures CanComplete(w)
  {
    var id := UnusedId(w.jobs.Keys);
    PlanComesBeforeCompletion(w, FULL, Fine(id));
    CompletedCan(Step(w, Advance(FULL, Fine(id))));
    StepLeadsOn(w, Advance(FULL, Fine(id)));
  }

  lemma StandardCan(w: World)
    requires In(w.batch, StandardPart)
    ensures CanComplete(w)
  {
    var id := UnusedId(w.jobs.Keys);
    var e := Advance(FULL, Fine(id));
    StandardGoesOn(w, FULL, Fine(id));
    if w.batch.encryptFirst { CompletedCan(Step(w, e)); } else { StandardReadyCan(Step(w, e)); }
    StepLeadsOn(w, e);
  }

  /** A job that was ever submitted may still succeed, and an activation request then looks at no stage. */
  lemma JobCan(w: World)
    requires w.batch.job.Some? && JobKnown(w)
    ensures CanComplete(w)
  {
    var ended := Step(w, JobEnds(w.batch.job.value, true));
    var e := Activate(FULL, Fine(0));
    var after := Step(ended, e);
    if w.batch.encryptFirst {
      assert In(after.batch, StandardPart);
      StandardCan(after);
    } else {
      CompletedCan(after);
    }
    StepLeadsOn(ended, e);
    StepLeadsOn(w, JobEnds(w.batch.job.value, true));
  }

  lemma EncryptionReadyCan(w: World)
    requires w.batch.stage == EncryptionReady && w.batch.planned && JobKnown(w)
    ensures CanComplete(w)
  {
    var id := UnusedId(w.jobs.Keys);
    var e := Advance(FULL, Fine(id));
    assert Step(w, e).batch.job == Some(id) && JobKnown(Step(w, e));
    JobCan(Step(w, e));
    StepLeadsOn(w, e);
  }

  lemma SyncCan(w: World)
    requires In(w.batch, SyncPart) && JobKnown(w)
    ensures CanComplete(w)
  {
    var id := UnusedId(w.jobs.Keys);
    var e := Advance(FULL, Fine(id));
    SyncGoesOn(w, FULL, Fine(id));
    assert JobKnown(Step(w, e));
    if w.batch.encryptFirst { EncryptionReadyCan(Step(w, e)); } else { StandardCan(Step(w, e)); }
    StepLeadsOn(w, e);
  }

  lemma RestoreCan(w: World)
    requires In(w.batch, RestorePart) && JobKnown(w)
    ensures CanComplete(w)
  {
    var id := UnusedId(w.jobs.Keys);
    var e := Advance(FULL, Fine(id));
    RestoreGoesOn(w, FULL, Fine(id));
    assert JobKnown(Step(w, e));
    SyncCan(Step(w, e));
    StepLeadsOn(w, e);
  }

  lemma StageCan(w: World)
    requires BatchBacked(w.batch) && JobKnown(w) && LeadsOn(w.batch.stage)
    ensures CanComplete(w)
  {
    if In(w.batch, RestorePart) {
      RestoreCan(w);
    } else if In(w.batch, SyncPart) {
      SyncCan(w);
    } else if In(w.batch, StandardPart) {
      StandardCan(w);
    } else if w.batch.job.Some? {
      JobCan(w);
    } else {
      match w.batch.stage
      case EncryptionReady => EncryptionReadyCan(w);
      case StandardReady => StandardReadyCan(w);
      case Completed => CompletedCan(w);
      case _ => NewBatchCan(w);
    }
  }

  lemma NewBatchCan(w: World)
    requires w.batch.stage == Stabilizing || w.batch.stage == Discovered
    requires w.batch.resume.None? && JobKnown(w)
    ensures CanComplete(w)
  {
    var e := if w.batch.stage == Stabilizing then Scan(true, Fine(0)) else Resume(FULL, Fine(0));
    assert In(Step(w, e).batch, RestorePart);
    RestoreCan(Step(w, e));
    StepLeadsOn(w, e);
  }

  lemma MarkCan(w: World)
    requires BatchBacked(w.batch) && JobKnown(w) && w.batch.resume.Some? && LeadsOn(w.batch.resume.value)
    ensures CanComplete(w)
  {
    var e := Resume(FULL, Fine(0));
    ResumeKeepsBacked(w.batch, FULL, Fine(0));
    assert LeadsOn(Step(w, e).batch.stage) && JobKnown(Step(w, e));
    StageCan(Step(w, e));
    StepLeadsOn(w, e);
  }

  lemma AliveCan(w: World)
    requires BatchBacked(w.batch) && JobKnown(w)
    ensures CanComplete(w) <==> Alive(w.batch)
  {
    if w.batch.job.Some? {
      JobCan(w);
    } else if LeadsOn(w.batch.stage) {
      StageCan(w);
    } else if Alive(w.batch) {
      MarkCan(w);
    } else if CanComplete(w) {
      var more :| Run(w, more).batch.stage == Completed;
      ClosedIsNeverCompleted(w, more);
    }
  }

  /**
   After any run a batch can still be completed by some continuation exactly if a job of it was submitted, or its
   stage or its resume stage leads on; otherwise it is lost for good, whatever anybody does.
   */
  lemma CanCompleteIff(encryptFirst: bool, events: seq<Event>)
    ensures CanComplete(Run(Created(encryptFirst), events)) <==> Alive(Run(Created(encryptFirst), events).batch)
  {
    RunIsBacked(encryptFirst, events);
    RunKnowsItsJob(encryptFirst, events);
    AliveCan(Run(Created(encryptFirst), events));
  }
}
