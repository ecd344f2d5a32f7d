/**
 The stage machine of one business batch, and the promise of its protected flow:
 nothing of the batch is standardised before an SM4 job of it has succeeded.

 `BatchRecord` changes the batch in place.  A step of the background loop that
 raises keeps the assignments made so far and then marks the batch failed; a
 request that raises keeps nothing.  What other records say (a recovery, a
 run, the pipeline's configuration) is a parameter of the step, so the properties
 hold whatever they say; the SM4 jobs of the batch are part of the state.
 */
module ProtectedFlow {
  import opened Basics

  datatype Stage =
    | Stabilizing | Discovered | RestoreQueued | Restoring | Restored | AssetRegistered
    | SyncQueued | Syncing | RawReady | EncryptionReady | Encrypting | SecurityAccessActive
    | StandardizeQueued | Standardizing | StandardReady | Completed | Failed | Blocked
    | PathMatched | AwaitingConfirmation

  /** `encryptFirst` is fixed when the batch is created; `planned` says that an encryption target is recorded. */
  datatype Batch = Batch(encryptFirst: bool, stage: Stage, resume: Option<Stage>, restoreTask: Option<nat>,
                         restoredTarget: bool,
                         syncRun: Option<nat>, standardRun: Option<nat>, job: Option<nat>, planned: bool)

  datatype Pipeline = Pipeline(syncNode: bool, workflow: bool, autoEncrypt: bool, access: bool)

  /** What the recovery or the run of the current stage says. */
  datatype Reading = Absent | Waiting | Busy | Bad | Good

  /**
   Everything a step learns from outside: the reading, whether recording assets or preparing the next
   run raises, the identifier a new record gets, and what the plan for encryption looks like.
   */
  datatype Look = Look(reading: Reading, recordFails: bool, prepareFails: bool, newId: nat,
                       schema: bool, eligible: nat, planReady: bool)

  datatype JobState = Open | Broken | Succeeded

  /** A step that may raise half way, with the batch as it then stands. */
  datatype Tried = Tried(batch: Batch, raised: bool)

  predicate Terminal(stage: Stage) {
    stage == Completed || stage == Blocked || stage == Failed
  }

  // ---- steps shared by the loop and the requests -------------------------------------------------------

  function QueueStandardization(b: Batch, p: Pipeline, l: Look): Tried {
    if !p.workflow || l.prepareFails then Tried(b, true)
    else Tried(b.(standardRun := Some(l.newId), stage := StandardizeQueued), false)
  }

  function SubmitEncryption(b: Batch, l: Look): Tried {
    if !b.planned || l.prepareFails then Tried(b, true)
    else Tried(b.(job := Some(l.newId), stage := Encrypting), false)
  }

  function FailedAt(b: Batch, resume: Stage): Batch {
    b.(stage := Failed, resume := Some(resume))
  }

  function CompleteEncryption(b: Batch, p: Pipeline, l: Look, jobs: map<nat, JobState>): Tried {
    if b.job.None? || b.job.value !in jobs then Tried(b, true)
    else match jobs[b.job.value]
      case Open => Tried(b, false)
      case Broken => Tried(FailedAt(b, if b.encryptFirst then EncryptionReady else StandardReady), false)
      case Succeeded =>
        if l.recordFails then Tried(b, true)
        else if b.encryptFirst then QueueStandardization(b.(stage := SecurityAccessActive), p, l)
        else Tried(b.(stage := Completed), false)
  }

  function QueueRestore(b: Batch, l: Look): Batch {
    b.(restoreTask := Some(l.newId), stage := RestoreQueued, resume := None)
  }

  // ---- the background loop -----------------------------------------------------------------------------

  function AdvanceRestore(b: Batch, p: Pipeline, l: Look): Tried {
    match l.reading
    case Absent => Tried(b, true)
    case Waiting => Tried(b.(stage := RestoreQueued), false)
    case Busy => Tried(b.(stage := Restoring), false)
    case Bad => Tried(FailedAt(b, RestoreQueued), false)
    case Good =>
      if !l.schema then Tried(b.(stage := Blocked, resume := Some(AssetRegistered)), false) else
        var restored := b.(restoredTarget := true, stage := Restored);
        if !p.syncNode then Tried(restored.(stage := RawReady), false)
        else if l.prepareFails then Tried(restored, true)
        else Tried(restored.(syncRun := Some(l.newId), stage := SyncQueued), false)
  }

  function AdvanceSync(b: Batch, p: Pipeline, l: Look): Tried {
    match l.reading
    case Absent => Tried(b, true)
    case Waiting => Tried(b.(stage := SyncQueued), false)
    case Busy => Tried(b.(stage := Syncing), false)
    case Bad => Tried(FailedAt(b, SyncQueued), false)
    case Good =>
      if l.recordFails then Tried(b, true) else
        var raw := b.(stage := RawReady);
        if b.encryptFirst then
          (if l.prepareFails then Tried(raw, true) else Tried(raw.(planned := true, stage := EncryptionReady), false))
        else if p.workflow then QueueStandardization(raw, p, l)
        else Tried(raw, false)
  }

  function AdvanceStandard(b: Batch, p: Pipeline, l: Look): Tried {
    match l.reading
    case Absent => Tried(b, true)
    case Waiting => Tried(b.(stage := StandardizeQueued), false)
    case Busy => Tried(b.(stage := Standardizing), false)
    case Bad => Tried(FailedAt(b, StandardizeQueued), false)
    case Good =>
      if l.recordFails then Tried(b, true) else
        var ready := b.(stage := StandardReady);
        if b.encryptFirst then Tried(ready.(stage := Completed), false)
        else if !p.autoEncrypt || l.eligible == 0 then Tried(ready, false)
        else if l.eligible > 1 then Tried(ready.(stage := Blocked, resume := Some(StandardReady)), false)
        else if p.access && l.prepareFails then Tried(ready, true)
        else if p.access && !l.planReady then Tried(ready.(stage := Blocked, resume := Some(StandardReady)), false)
        else Tried(ready.(planned := true, stage := EncryptionReady), false)
  }

  function AdvanceOne(b: Batch, p: Pipeline, l: Look, jobs: map<nat, JobState>): Tried {
    if b.restoreTask.Some? && (b.stage == RestoreQueued || b.stage == Restoring) then AdvanceRestore(b, p, l)
    else if b.syncRun.Some? && (b.stage == SyncQueued || b.stage == Syncing) then AdvanceSync(b, p, l)
    else if b.standardRun.Some? && (b.stage == StandardizeQueued || b.stage == Standardizing)
      then AdvanceStandard(b, p, l)
    else if b.stage == EncryptionReady then SubmitEncryption(b, l)
    else if b.job.Some? && b.stage == Encrypting then CompleteEncryption(b, p, l, jobs)
    else if b.stage == StandardReady then Tried(b.(stage := Completed), false)
    else Tried(b, false)
  }

  /** The loop keeps what was assigned before the exception, and an earlier resume stage over the failed one. */
  function Handled(t: Tried): Batch {
    if !t.raised then t.batch
    else t.batch.(stage := Failed, resume := if t.batch.resume.Some? then t.batch.resume else Some(t.batch.stage))
  }

  function AfterAdvance(b: Batch, p: Pipeline, l: Look, jobs: map<nat, JobState>): Batch {
    if Terminal(b.stage) then b else Handled(AdvanceOne(b, p, l, jobs))
  }

  // ---- requests --------------------------------------------------------------------------------------------

  /** A batch resumes from its resume stage, or from the stage it is in, whatever that is. */
  function AfterResume(b: Batch, p: Pipeline, l: Look): Batch {
    var from := if b.resume.Some? then b.resume.value else b.stage;
    if from == RestoreQueued || from == Restoring || from == Discovered then QueueRestore(b, l)
    else if from == SyncQueued || from == Syncing then
      if !p.syncNode || !b.restoredTarget || l.prepareFails then b
      else b.(syncRun := Some(l.newId), stage := SyncQueued, resume := None)
    else if from == StandardizeQueued || from == Standardizing then
      if !p.workflow || l.prepareFails then b
      else b.(standardRun := Some(l.newId), stage := StandardizeQueued, resume := None)
    else b.(stage := from, resume := None)
  }

  function AfterScan(b: Batch, restore: bool, l: Look): Batch {
    if b.stage != Stabilizing then b else if restore then QueueRestore(b, l) else b.(stage := Discovered)
  }

  function AfterSubmit(b: Batch, p: Pipeline, l: Look): Batch {
    var t := SubmitEncryption(b, l);
    if b.stage != EncryptionReady || !p.access || t.raised then b else t.batch
  }

  /** The request to activate secure access looks at no stage at all. */
  function AfterActivate(b: Batch, p: Pipeline, l: Look, jobs: map<nat, JobState>): Batch {
    var t := CompleteEncryption(b, p, l, jobs);
    if t.raised then b else t.batch
  }

  function AfterPlan(b: Batch): Batch {
    if b.stage == StandardReady then b.(planned := true, stage := EncryptionReady) else b
  }

  // ---- the batch among its SM4 jobs ---------------------------------------------------------------------------

  /** `encrypted` says that some SM4 job of the batch has ever succeeded; no step reads it. */
  datatype World = World(batch: Batch, jobs: map<nat, JobState>, encrypted: bool)

  datatype Event =
    | Scan(restore: bool, look: Look)
    | Advance(pipeline: Pipeline, look: Look)
    | Resume(pipeline: Pipeline, look: Look)
    | Submit(pipeline: Pipeline, look: Look)
    | Activate(pipeline: Pipeline, look: Look)
    | PlanEncryption
    | MatchBlueprint(stage: Stage)
    | JobEnds(id: nat, ok: bool)

  function Created(encryptFirst: bool): World {
    World(Batch(encryptFirst, Stabilizing, None, None, false, None, None, None, false), map[], false)
  }

  /** A step that names a new SM4 job registers it as open. */
  function Become(w: World, b: Batch): World {
    w.(batch := b, jobs := if b.job.Some? && b.job != w.batch.job then w.jobs[b.job.value := Open] else w.jobs)
  }

  function Step(w: World, e: Event): World {
    match e
    case Scan(restore, l) => Become(w, AfterScan(w.batch, restore, l))
    case Advance(p, l) => if l.newId in w.jobs then w else Become(w, AfterAdvance(w.batch, p, l, w.jobs))
    case Resume(p, l) => Become(w, AfterResume(w.batch, p, l))
    case Submit(p, l) => if l.newId in w.jobs then w else Become(w, AfterSubmit(w.batch, p, l))
    case Activate(p, l) => Become(w, AfterActivate(w.batch, p, l, w.jobs))
    case PlanEncryption => Become(w, AfterPlan(w.batch))
    case MatchBlueprint(stage) =>
      if stage == PathMatched || stage == AwaitingConfirmation || stage == Blocked
      then Become(w, w.batch.(stage := stage)) else w
    case JobEnds(id, ok) =>
      if id in w.jobs
      then w.(jobs := w.jobs[id := if ok then Succeeded else Broken], encrypted := w.encrypted || ok) else w
  }

  function Run(w: World, events: seq<Event>): World
    decreases |events|
  {
    if events == [] then w else Step(Run(w, events[..|events| - 1]), events[|events| - 1])
  }

  // ---- the promise -------------------------------------------------------------------------------------------------

  predicate PastEncryption(stage: Stage) {
    stage == SecurityAccessActive || stage == StandardizeQueued || stage == Standardizing || stage == StandardReady
    || stage == Completed
  }

  /** The batch is, will be, or was being standardised. */
  predicate Standardises(b: Batch) {
    b.standardRun.Some? || PastEncryption(b.stage) || (b.resume.Some? && PastEncryption(b.resume.value))
  }

  predicate InOrder(b: Batch, encrypted: bool) {
    b.encryptFirst && (Standardises(b) ==> encrypted)
  }

  predicate JobsCounted(jobs: map<nat, JobState>, encrypted: bool) {
    forall id :: id in jobs && jobs[id] == Succeeded ==> encrypted
  }

  predicate Kept(w: World) {
    InOrder(w.batch, w.encrypted) && JobsCounted(w.jobs, w.encrypted)
  }

  lemma AdvanceRestoreKeeps(b: Batch, p: Pipeline, l: Look, encrypted: bool)
    requires InOrder(b, encrypted)
    ensures InOrder(AdvanceRestore(b, p, l).batch, encrypted)
  {
  }

  lemma AdvanceSyncKeeps(b: Batch, p: Pipeline, l: Look, encrypted: bool)
    requires InOrder(b, encrypted)
    ensures InOrder(AdvanceSync(b, p, l).batch, encrypted)
  {
  }

  lemma AdvanceStandardKeeps(b: Batch, p: Pipeline, l: Look, encrypted: bool)
    requires InOrder(b, encrypted) && b.standardRun.Some?
    ensures InOrder(AdvanceStandard(b, p, l).batch, encrypted)
  {
  }

  /** The only step that starts standardising, and it has just seen its job succeed. */
  lemma CompleteEncryptionKeeps(b: Batch, p: Pipeline, l: Look, jobs: map<nat, JobState>, encrypted: bool)
    requires InOrder(b, encrypted) && JobsCounted(jobs, encrypted)
    ensures InOrder(CompleteEncryption(b, p, l, jobs).batch, encrypted)
  {
  }

  lemma AdvanceOneKeeps(b: Batch, p: Pipeline, l: Look, jobs: map<nat, JobState>, encrypted: bool)
    requires InOrder(b, encrypted) && JobsCounted(jobs, encrypted)
    ensures InOrder(AdvanceOne(b, p, l, jobs).batch, encrypted)
  {
    AdvanceRestoreKeeps(b, p, l, encrypted);
    AdvanceSyncKeeps(b, p, l, encrypted);
    if b.standardRun.Some? {
      AdvanceStandardKeeps(b, p, l, encrypted);
    }
    CompleteEncryptionKeeps(b, p, l, jobs, encrypted);
  }

  lemma AdvanceKeeps(b: Batch, p: Pipeline, l: Look, jobs: map<nat, JobState>, encrypted: bool)
    requires InOrder(b, encrypted) && JobsCounted(jobs, encrypted)
    ensures InOrder(AfterAdvance(b, p, l, jobs), encrypted)
  {
    AdvanceOneKeeps(b, p, l, jobs, encrypted);
  }

  lemma ResumeKeeps(b: Batch, p: Pipeline, l: Look, encrypted: bool)
    requires InOrder(b, encrypted)
    ensures InOrder(AfterResume(b, p, l), encrypted)
  {
  }

  lemma BecomeKeeps(w: World, b: Batch)
    requires Kept(w) && InOrder(b, w.encrypted)
    ensures Kept(Become(w, b))
  {
  }

  lemma StepKeeps(w: World, e: Event)
    requires Kept(w)
    ensures Kept(Step(w, e))
  {
    match e
    case Advance(p, l) =>
      AdvanceKeeps(w.batch, p, l, w.jobs, w.encrypted);
      BecomeKeeps(w, AfterAdvance(w.batch, p, l, w.jobs));
    case Resume(p, l) =>
      ResumeKeeps(w.batch, p, l, w.encrypted);
      BecomeKeeps(w, AfterResume(w.batch, p, l));
    case Activate(p, l) =>
      CompleteEncryptionKeeps(w.batch, p, l, w.jobs, w.encrypted);
      BecomeKeeps(w, AfterActivate(w.batch, p, l, w.jobs));
    case Submit(p, l) => BecomeKeeps(w, AfterSubmit(w.batch, p, l));
    case Scan(restore, l) => BecomeKeeps(w, AfterScan(w.batch, restore, l));
    case PlanEncryption => BecomeKeeps(w, AfterPlan(w.batch));
    case MatchBlueprint(stage) =>
      if stage == PathMatched || stage == AwaitingConfirmation || stage == Blocked {
        BecomeKeeps(w, w.batch.(stage := stage));
      }
    case JobEnds(id, ok) =>
  }

  lemma {:induction false} RunKeeps(w: World, events: seq<Event>)
    requires Kept(w)
    ensures Kept(Run(w, events))
    decreases |events|
  {
    if events != [] {
      var init := events[..|events| - 1];
      RunKeeps(w, init);
      StepKeeps(Run(w, init), events[|events| - 1]);
    }
  }

  /** Whatever is advanced, submitted, activated, resumed or raised in whatever order, encryption comes first. */
  lemma EncryptsBeforeStandardising(events: seq<Event>)
    ensures var w := Run(Created(true), events); Standardises(w.batch) ==> w.encrypted
  {
    RunKeeps(Created(true), events);
  }

  // ---- where the loop stops ---------------------------------------------------------------------

  /** No branch of the loop applies. */
  predicate Stuck(b: Batch) {
    b.stage in {Completed, Blocked, Failed}
    || (!(b.restoreTask.Some? && (b.stage == RestoreQueued || b.stage == Restoring))
        && !(b.syncRun.Some? && (b.stage == SyncQueued || b.stage == Syncing))
        && !(b.standardRun.Some? && (b.stage == StandardizeQueued || b.stage == Standardizing))
        && b.stage != EncryptionReady && !(b.job.Some? && b.stage == Encrypting) && b.stage != StandardReady)
  }

  ghost predicate Stays(b: Batch, p: Pipeline, l: Look, jobs: map<nat, JobState>) {
    AfterAdvance(b, p, l, jobs) == b
  }

  /** The loop leaves a batch where it is, whatever it learns, exactly in these stages. */
  lemma StaysIffStuck(b: Batch)
    ensures (forall p, l, jobs :: Stays(b, p, l, jobs)) <==> Stuck(b)
  {
    if !Stuck(b) {
      var l := Look(Absent, true, true, 0, false, 0, false);
      assert !Stays(b, Pipeline(false, false, false, false), l, map[]);
    }
  }

  /** Among them are three that a batch reaches without having failed. */
  lemma DeadEnds(b: Batch)
    requires b.stage == RawReady || b.stage == Restored || b.stage == SecurityAccessActive
    ensures Stuck(b)
  {
  }

  lemma RunSnoc(w: World, events: seq<Event>, e: Event)
    ensures Run(w, events + [e]) == Step(Run(w, events), e)
  {
    assert (events + [e])[..|events|] == events;
  }

  /** Completing raises after the stage was set: the loop then records a stage that neither it nor a resume leaves. */
  lemma ActivationCanStrand(b: Batch, p: Pipeline, l: Look, jobs: map<nat, JobState>)
    requires b.encryptFirst && b.stage == Encrypting && b.resume.None? && b.job.Some? && b.job.value in jobs
    requires jobs[b.job.value] == Succeeded && !l.recordFails && (l.prepareFails || !p.workflow)
    ensures var failed := AfterAdvance(b, p, l, jobs);
            failed.stage == Failed && failed.resume == Some(SecurityAccessActive)
            && forall q, m ::
                 Stuck(AfterResume(failed, q, m)) && AfterResume(failed, q, m).stage == SecurityAccessActive
  {
  }

  /** Secure access is active only in a protected batch, and with no resume stage left. */
  predicate AccessInvariant(b: Batch) {
    (b.stage == SecurityAccessActive ==> b.encryptFirst && b.resume.None?)
    && (b.resume == Some(SecurityAccessActive) ==> b.encryptFirst)
  }

  lemma StepKeepsAccessInvariant(w: World, e: Event)
    requires AccessInvariant(w.batch)
    ensures AccessInvariant(Step(w, e).batch)
  {
    match e
    case Advance(p, l) => AdvanceKeepsAccessInvariant(w.batch, p, l, w.jobs);
    case _ =>
  }

  /** A step of the loop comes out of its branch in that stage only by raising. */
  predicate AccessTried(b: Batch, t: Tried) {
    t.batch.encryptFirst == b.encryptFirst && (t.batch.resume == Some(SecurityAccessActive) ==> b.encryptFirst)
    && (t.batch.stage == SecurityAccessActive ==> b.encryptFirst && (t.raised || t.batch == b))
  }

  lemma RestoreTriesAccess(b: Batch, p: Pipeline, l: Look)
    requires AccessInvariant(b)
    ensures AccessTried(b, AdvanceRestore(b, p, l))
  {
  }

  lemma SyncTriesAccess(b: Batch, p: Pipeline, l: Look)
    requires AccessInvariant(b)
    ensures AccessTried(b, AdvanceSync(b, p, l))
  {
  }

  lemma StandardTriesAccess(b: Batch, p: Pipeline, l: Look)
    requires AccessInvariant(b)
    ensures AccessTried(b, AdvanceStandard(b, p, l))
  {
  }

  lemma EncryptionStepsTryAccess(b: Batch, p: Pipeline, l: Look, jobs: map<nat, JobState>)
    requires AccessInvariant(b)
    ensures AccessTried(b, SubmitEncryption(b, l)) && AccessTried(b, CompleteEncryption(b, p, l, jobs))
  {
  }

  lemma AdvanceKeepsAccessInvariant(b: Batch, p: Pipeline, l: Look, jobs: map<nat, JobState>)
    requires AccessInvariant(b)
    ensures AccessInvariant(AfterAdvance(b, p, l, jobs))
  {
    RestoreTriesAccess(b, p, l);
    SyncTriesAccess(b, p, l);
    StandardTriesAccess(b, p, l);
    EncryptionStepsTryAccess(b, p, l, jobs);
    assert AccessTried(b, AdvanceOne(b, p, l, jobs));
  }

  lemma {:induction false} RunKeepsAccessInvariant(encryptFirst: bool, events: seq<Event>)
    ensures AccessInvariant(Run(Created(encryptFirst), events).batch)
    decreases |events|
  {
    if events != [] {
      var init := events[..|events| - 1];
      RunKeepsAccessInvariant(encryptFirst, init);
      StepKeepsAccessInvariant(Run(Created(encryptFirst), init), events[|events| - 1]);
    }
  }

  /** Where an event takes a batch whose secure access is active. */
  function AfterAccess(w: World, e: Event): Stage {
    match e
    case Activate(p, l) =>
      if w.batch.job.None? || w.batch.job.value !in w.jobs then SecurityAccessActive
      else (match w.jobs[w.batch.job.value]
            case Open => SecurityAccessActive
            case Broken => Failed
            case Succeeded => if p.workflow && !l.recordFails && !l.prepareFails then StandardizeQueued
              else SecurityAccessActive)
    case MatchBlueprint(stage) =>
      if stage == PathMatched || stage == AwaitingConfirmation || stage == Blocked then stage else SecurityAccessActive
    case _ => SecurityAccessActive
  }

  /**
   In every run, a batch whose secure access is active leaves that stage only by a request to activate it that
   finds the job broken or prepares the standardisation without an exception, or by matching its path; the loop,
   a resume, a submission and a plan all leave it there, and its resume stage empty.
   */
  lemma AccessIsLeftBy(encryptFirst: bool, events: seq<Event>, e: Event)
    requires Run(Created(encryptFirst), events).batch.stage == SecurityAccessActive
    ensures var w := Run(Created(encryptFirst), events);
            Step(w, e).batch.stage == AfterAccess(w, e)
            && (AfterAccess(w, e) == SecurityAccessActive ==> Step(w, e).batch == w.batch)
  {
    RunKeepsAccessInvariant(encryptFirst, events);
  }

  /** The whole protected flow, when everything succeeds: restore, sync, encrypt, standardise, complete. */
  lemma ProtectedFlowCompletes()
    ensures exists events :: Run(Created(true), events).batch.stage == Completed
  {
    var p, l := Pipeline(true, true, true, true), Look(Good, false, false, 8, true, 0, true);
    var events, w := EncryptionSucceeds();
    RunSnoc(Created(true), events, Advance(p, l));
    var queued := AfterAdvance(w.batch, p, l, w.jobs);
    assert queued == w.batch.(standardRun := Some(8), stage := StandardizeQueued);
    StandardisingCompletes(events + [Advance(p, l)], Become(w, queued), p, l);
  }

  lemma StandardisingCompletes(events: seq<Event>, w: World, p: Pipeline, l: Look)
    requires w == Run(Created(true), events) && 8 !in w.jobs
    requires w.batch.encryptFirst && w.batch.stage == StandardizeQueued && w.batch.standardRun.Some?
             && l == Look(Good, false, false, 8, true, 0, true)
    ensures Run(Created(true), events + [Advance(p, l)]).batch.stage == Completed
  {
    RunSnoc(Created(true), events, Advance(p, l));
  }

  lemma EncryptionSucceeds() returns (events: seq<Event>, w: World)
    ensures w == Run(Created(true), events) && w.batch.encryptFirst && w.batch.stage == Encrypting
    ensures w.batch.job == Some(7) && w.jobs == map[7 := Succeeded]
  {
    var p, l := Pipeline(true, true, true, true), Look(Good, false, false, 7, true, 0, true);
    var early, synced := SyncSucceeds(p, l);
    RunSnoc(Created(true), early, Advance(p, l));
    var submitted := Become(synced, synced.batch.(job := Some(7), stage := Encrypting));
    assert Run(Created(true), early + [Advance(p, l)]) == submitted;
    RunSnoc(Created(true), early + [Advance(p, l)], JobEnds(7, true));
    events := early + [Advance(p, l)] + [JobEnds(7, true)];
    w := submitted.(jobs := map[7 := Succeeded], encrypted := true);
  }

  lemma SyncSucceeds(p: Pipeline, l: Look) returns (events: seq<Event>, w: World)
    requires p == Pipeline(true, true, true, true) && l == Look(Good, false, false, 7, true, 0, true)
    ensures w == Run(Created(true), events) && w.batch.encryptFirst && w.batch.stage == EncryptionReady
    ensures w.batch.planned && w.batch.job.None? && w.jobs == map[]
  {
    var w0 := Created(true);
    var none: seq<Event> := [];
    RunSnoc(w0, none, Scan(true, l));
    var restoring := w0.(batch := QueueRestore(w0.batch, l));
    RunSnoc(w0, none + [Scan(true, l)], Advance(p, l));
    var syncing := w0.(batch := restoring.batch.(restoredTarget := true, syncRun := Some(7), stage := SyncQueued));
    assert AfterAdvance(restoring.batch, p, l, map[]) == syncing.batch;
    RunSnoc(w0, none + [Scan(true, l)] + [Advance(p, l)], Advance(p, l));
    events := none + [Scan(true, l)] + [Advance(p, l)] + [Advance(p, l)];
    w := w0.(batch := syncing.batch.(planned := true, stage := EncryptionReady));
    assert AfterAdvance(syncing.batch, p, l, map[]) == w.batch;
  }

  // ---- the batch, updated in place --------------------------------------------------------------

  /** A protected batch starts to be standardised only where an SM4 job of it has succeeded. */
  predicate StartsInOrder(b: Batch, after: Batch, succeeded: bool) {
    b.encryptFirst && Standardises(after) ==> Standardises(b) || succeeded
  }

  class BatchRecord {
    const encryptFirst: bool
    var stage: Stage
    var resume: Option<Stage>
    var restoreTask: Option<nat>
    var restoredTarget: bool
    var syncRun: Option<nat>
    var standardRun: Option<nat>
    var job: Option<nat>
    var planned: bool

    ghost function View(): Batch
      reads this
    {
      Batch(encryptFirst, stage, resume, restoreTask, restoredTarget, syncRun, standardRun, job, planned)
    }

    constructor (encryptFirst: bool)
      ensures View() == Created(encryptFirst).batch
    {
      this.encryptFirst := encryptFirst;
      stage, resume, restoreTask, restoredTarget := Stabilizing, None, None, false;
      syncRun, standardRun, job, planned := None, None, None, false;
    }

    method QueueStandard(p: Pipeline, l: Look) returns (raised: bool)
      modifies this
      ensures Tried(View(), raised) == QueueStandardization(old(View()), p, l)
      ensures raised ==> View() == old(View())
    {
      if !p.workflow { return true; }
      if l.prepareFails { return true; }
      standardRun, stage := Some(l.newId), StandardizeQueued;
      raised := false;
    }

    method SubmitSm4(l: Look) returns (raised: bool)
      modifies this
      ensures Tried(View(), raised) == SubmitEncryption(old(View()), l) && StartsInOrder(old(View()), View(), false)
    {
      if !planned || l.prepareFails { return true; }
      job, stage := Some(l.newId), Encrypting;
      raised := false;
    }

    method CompleteSm4(p: Pipeline, l: Look, jobs: map<nat, JobState>) returns (raised: bool)
      modifies this
      ensures Tried(View(), raised) == CompleteEncryption(old(View()), p, l, jobs)
              && StartsInOrder(old(View()), View(), Succeeded in jobs.Values)
    {
      if job.None? || job.value !in jobs { return true; }
      var state := jobs[job.value];
      if state == Open { return false; }
      if state != Succeeded {
        stage, resume := Failed, Some(if encryptFirst then EncryptionReady else StandardReady);
        return false;
      }
      if l.recordFails { return true; }
      if encryptFirst {
        stage := SecurityAccessActive;
        raised := QueueStandard(p, l);
        return;
      }
      stage := Completed;
      raised := false;
    }

    method RestoreStep(p: Pipeline, l: Look) returns (raised: bool)
      modifies this
      ensures Tried(View(), raised) == AdvanceRestore(old(View()), p, l) && StartsInOrder(old(View()), View(), false)
    {
      raised := false;
      match l.reading {
        case Absent => raised := true;
        case Waiting => stage := RestoreQueued;
        case Busy => stage := Restoring;
        case Bad => stage, resume := Failed, Some(RestoreQueued);
        case Good =>
          if !l.schema { stage, resume := Blocked, Some(AssetRegistered); return; }
          restoredTarget, stage := true, Restored;
          if p.syncNode {
            if l.prepareFails { return true; }
            syncRun, stage := Some(l.newId), SyncQueued;
          } else {
            stage := RawReady;
          }
      }
    }

    method SyncStep(p: Pipeline, l: Look) returns (raised: bool)
      modifies this
      ensures Tried(View(), raised) == AdvanceSync(old(View()), p, l) && StartsInOrder(old(View()), View(), false)
    {
      raised := false;
      match l.reading {
        case Absent => raised := true;
        case Waiting => stage := SyncQueued;
        case Busy => stage := Syncing;
        case Bad => stage, resume := Failed, Some(SyncQueued);
        case Good =>
          if l.recordFails { return true; }
          stage := RawReady;
          if encryptFirst {
            if l.prepareFails { return true; }
            planned, stage := true, EncryptionReady;
          } else if p.workflow {
            raised := QueueStandard(p, l);
          }
      }
    }

    method StandardStep(p: Pipeline, l: Look) returns (raised: bool)
      modifies this
      ensures Tried(View(), raised) == AdvanceStandard(old(View()), p, l)
      ensures old(standardRun).Some? ==> StartsInOrder(old(View()), View(), false)
    {
      raised := false;
      match l.reading {
        case Absent => raised := true;
        case Waiting => stage := StandardizeQueued;
        case Busy => stage := Standardizing;
        case Bad => stage, resume := Failed, Some(StandardizeQueued);
        case Good =>
          if l.recordFails { return true; }
          stage := StandardReady;
          if encryptFirst { stage := Completed; return; }
          if p.autoEncrypt {
            if l.eligible == 1 {
              if p.access {
                if l.prepareFails { return true; }
                if !l.planReady { stage, resume := Blocked, Some(StandardReady); return; }
              }
              planned, stage := true, EncryptionReady;
            } else if l.eligible > 1 {
              stage, resume := Blocked, Some(StandardReady);
            }
          }
      }
    }

    method Advance(p: Pipeline, l: Look, jobs: map<nat, JobState>)
      modifies this
      ensures View() == AfterAdvance(old(View()), p, l, jobs)
              && StartsInOrder(old(View()), View(), Succeeded in jobs.Values)
    {
      if Terminal(stage) { return; }
      var raised := false;
      if restoreTask.Some? && (stage == RestoreQueued || stage == Restoring) { raised := RestoreStep(p, l); }
      else if syncRun.Some? && (stage == SyncQueued || stage == Syncing) { raised := SyncStep(p, l); }
      else if standardRun.Some? && (stage == StandardizeQueued || stage == Standardizing) {
        raised := StandardStep(p, l);
      }
      else if stage == EncryptionReady { raised := SubmitSm4(l); }
      else if job.Some? && stage == Encrypting { raised := CompleteSm4(p, l, jobs); }
      else if stage == StandardReady { stage := Completed; }
      if raised {
        if resume.None? { resume := Some(stage); }
        stage := Failed;
      }
    }

    method ResumeFromStage(p: Pipeline, l: Look) returns (accepted: bool)
      modifies this
      ensures View() == AfterResume(old(View()), p, l) && StartsInOrder(old(View()), View(), false)
      ensures !accepted ==> View() == old(View())
    {
      var from := if resume.Some? then resume.value else stage;
      accepted := true;
      if from == RestoreQueued || from == Restoring || from == Discovered {
        restoreTask, stage, resume := Some(l.newId), RestoreQueued, None;
      } else if from == SyncQueued || from == Syncing {
        if !p.syncNode || !restoredTarget || l.prepareFails { return false; }
        syncRun, stage, resume := Some(l.newId), SyncQueued, None;
      } else if from == StandardizeQueued || from == Standardizing {
        if !p.workflow || l.prepareFails { return false; }
        standardRun, stage, resume := Some(l.newId), StandardizeQueued, None;
      } else {
        stage, resume := from, None;
      }
    }

    /** A request: what it assigned before it raised is not committed. */
    method ActivateAccess(p: Pipeline, l: Look, jobs: map<nat, JobState>) returns (raised: bool)
      modifies this
      ensures View() == AfterActivate(old(View()), p, l, jobs)
              && StartsInOrder(old(View()), View(), Succeeded in jobs.Values)
    {
      var was, wasResume, wasStandard := stage, resume, standardRun;
      raised := CompleteSm4(p, l, jobs);
      if raised { stage, resume, standardRun := was, wasResume, wasStandard; }
    }

    method SubmitRequest(p: Pipeline, l: Look) returns (accepted: bool)
      modifies this
      ensures View() == AfterSubmit(old(View()), p, l) && StartsInOrder(old(View()), View(), false)
    {
      if stage != EncryptionReady || !p.access { return false; }
      var raised := SubmitSm4(l);
      accepted := !raised;
    }
  }
}
