/**
 What becomes of a batch whose step waits, fails or succeeds, and what a resume makes of it.

 The laws speak of whole steps of the loop and of requests, and say in stages and
 record numbers what they leave; `Part` names the three steps that work on a run of
 another service.
 */
module ProtectedRecovery {
  import opened Basics
  import opened ProtectedFlow

  datatype Part = RestorePart | SyncPart | StandardPart

  /** The batch is in the part: handed over or running, with a record of its run. */
  predicate In(b: Batch, x: Part) {
    match x
    case RestorePart => b.restoreTask.Some? && b.stage in {RestoreQueued, Restoring}
    case SyncPart => b.syncRun.Some? && b.stage in {SyncQueued, Syncing}
    case StandardPart => b.standardRun.Some? && b.stage in {StandardizeQueued, Standardizing}
  }

  /** The part is handed over again, under a new identifier, and no resume stage is left. */
  function HandedOver(b: Batch, x: Part, id: nat): Batch {
    match x
    case RestorePart => b.(restoreTask := Some(id), stage := RestoreQueued, resume := None)
    case SyncPart => b.(syncRun := Some(id), stage := SyncQueued, resume := None)
    case StandardPart => b.(standardRun := Some(id), stage := StandardizeQueued, resume := None)
  }

  /** What handing over a part again needs: its node or workflow, its source, and a request that does not raise. */
  predicate CanHandOver(b: Batch, x: Part, p: Pipeline, l: Look) {
    match x
    case RestorePart => true
    case SyncPart => p.syncNode && b.restoredTarget && !l.prepareFails
    case StandardPart => p.workflow && !l.prepareFails
  }

  // ---- waiting ----------------------------------------------------------------------------------

  function HandedOverStage(x: Part): Stage {
    match x case RestorePart => RestoreQueued case SyncPart => SyncQueued case StandardPart => StandardizeQueued
  }

  function WorkingStage(x: Part): Stage {
    match x case RestorePart => Restoring case SyncPart => Syncing case StandardPart => Standardizing
  }

  /** While the run of a part is on its way, the loop shows how far it is, and nothing else of the batch changes. */
  lemma LoopShowsTheRun(w: World, x: Part, p: Pipeline, l: Look)
    requires In(w.batch, x) && l.newId !in w.jobs
    ensures l.reading == Waiting ==> Step(w, Advance(p, l)) == w.(batch := w.batch.(stage := HandedOverStage(x)))
    ensures l.reading == Busy ==> Step(w, Advance(p, l)) == w.(batch := w.batch.(stage := WorkingStage(x)))
  {
  }

  // ---- failing and resuming ---------------------------------------------------------------------

  /** The step raises before it has set a new stage: its record is gone, or recording its results raises. */
  predicate RaisesEarly(x: Part, l: Look) {
    l.reading == Absent || (l.reading == Good && x != RestorePart && l.recordFails)
  }

  /** The step raises after it has set a new stage: what comes next cannot be prepared. */
  predicate RaisesLate(b: Batch, x: Part, p: Pipeline, l: Look) {
    l.reading == Good && !RaisesEarly(x, l) &&
    match x
    case RestorePart => l.schema && p.syncNode && l.prepareFails
    case SyncPart => l.prepareFails && (b.encryptFirst || p.workflow)
    case StandardPart => !b.encryptFirst && p.autoEncrypt && l.eligible == 1 && p.access && l.prepareFails
  }

  /** The stages from which a resume hands the part over. */
  predicate Redoes(x: Part, mark: Stage) {
    mark == HandedOverStage(x) || mark == WorkingStage(x)
  }

  lemma FailureLeavesAMark(w: World, x: Part, p: Pipeline, l: Look) returns (mark: Stage)
    requires In(w.batch, x) && l.newId !in w.jobs
    requires l.reading == Bad || (RaisesEarly(x, l) && w.batch.resume.None?)
    ensures Step(w, Advance(p, l)) == w.(batch := w.batch.(stage := Failed, resume := Some(mark))) && Redoes(x, mark)
  {
    mark := if l.reading == Bad then HandedOverStage(x) else w.batch.stage;
  }

  lemma MarkedPartIsRedone(w: World, x: Part, mark: Stage, q: Pipeline, m: Look)
    requires Redoes(x, mark)
    ensures var failed := w.(batch := w.batch.(stage := Failed, resume := Some(mark)));
            Step(failed, Resume(q, m))
            == if CanHandOver(w.batch, x, q, m) then w.(batch := HandedOver(w.batch, x, m.newId)) else failed
  {
  }

  /**
   A part that failed is done again: the resume hands it over anew if it can, and otherwise is refused and leaves the
   failed batch alone.  Where an earlier resume stage is still set, that holds of a known failure only.
   */
  lemma FailedPartIsRedone(w: World, x: Part, p: Pipeline, l: Look, q: Pipeline, m: Look)
    requires In(w.batch, x) && l.newId !in w.jobs
    requires l.reading == Bad || (RaisesEarly(x, l) && w.batch.resume.None?)
    ensures var failed := Step(w, Advance(p, l));
            failed.batch.stage == Failed
            && Step(failed, Resume(q, m))
               == if CanHandOver(w.batch, x, q, m) then w.(batch := HandedOver(w.batch, x, m.newId)) else failed
  {
    var mark := FailureLeavesAMark(w, x, p, l);
    MarkedPartIsRedone(w, x, mark, q, m);
  }

  /** A bad reading marks the part to be handed over again, whatever was marked before. */
  lemma BadReadingIsMarked(w: World, x: Part, p: Pipeline, l: Look)
    requires In(w.batch, x) && l.newId !in w.jobs && l.reading == Bad
    ensures Step(w, Advance(p, l)) == w.(batch := w.batch.(stage := Failed, resume := Some(HandedOverStage(x))))
  {
  }

  /** An exception leaves an earlier resume stage in place, and of the rest only marks the batch failed. */
  lemma ExceptionKeepsTheMark(w: World, x: Part, p: Pipeline, l: Look)
    requires In(w.batch, x) && l.newId !in w.jobs && RaisesEarly(x, l) && w.batch.resume.Some?
    ensures Step(w, Advance(p, l)) == w.(batch := w.batch.(stage := Failed))
  {
  }

  /** Where a part leaves the batch before it prepares what comes next. */
  function Between(x: Part): Stage {
    match x
    case RestorePart => Restored
    case SyncPart => RawReady
    case StandardPart => StandardReady
  }

  lemma LateExceptionLeavesAMark(w: World, x: Part, p: Pipeline, l: Look)
    requires In(w.batch, x) && l.newId !in w.jobs && RaisesLate(w.batch, x, p, l) && w.batch.resume.None?
    ensures Step(w, Advance(p, l)) ==
            w.(batch := w.batch.(stage := Failed, resume := Some(Between(x)),
                                 restoredTarget := w.batch.restoredTarget || x == RestorePart))
  {
  }

  /** An exception after that is resumed in between, where the part is not done again. */
  lemma LateExceptionIsNotRedone(w: World, x: Part, p: Pipeline, l: Look, q: Pipeline, m: Look)
    requires In(w.batch, x) && l.newId !in w.jobs && RaisesLate(w.batch, x, p, l) && w.batch.resume.None?
    ensures Step(Step(w, Advance(p, l)), Resume(q, m)) ==
            w.(batch := w.batch.(stage := Between(x), restoredTarget := w.batch.restoredTarget || x == RestorePart))
  {
    LateExceptionLeavesAMark(w, x, p, l);
    assert Step(w, Advance(p, l)).batch.resume == Some(Between(x));
  }

  /** There the loop leaves a restored or synchronised batch for good, and completes a standardised one unencrypted. */
  lemma InBetweenIsADeadEnd(w: World, x: Part, p: Pipeline, l: Look)
    requires w.batch.stage == Between(x) && l.newId !in w.jobs
    ensures x == StandardPart ==> Step(w, Advance(p, l)) == w.(batch := w.batch.(stage := Completed))
    ensures x != StandardPart ==> Step(w, Advance(p, l)) == w
  {
  }

  /** A step over a run fails the batch on a bad reading, or by one of these exceptions, and in no other case. */
  lemma PartFailsIff(w: World, x: Part, p: Pipeline, l: Look)
    requires In(w.batch, x) && l.newId !in w.jobs
    ensures Step(w, Advance(p, l)).batch.stage == Failed <==>
              l.reading == Bad || RaisesEarly(x, l) || RaisesLate(w.batch, x, p, l)
  {
    var t := AdvanceOne(w.batch, p, l, w.jobs);
    match x
    case RestorePart => assert t == AdvanceRestore(w.batch, p, l);
    case SyncPart => assert t == AdvanceSync(w.batch, p, l);
    case StandardPart => assert t == AdvanceStandard(w.batch, p, l);
  }

  // ---- succeeding -------------------------------------------------------------------------------

  lemma RestoreGoesOn(w: World, p: Pipeline, l: Look)
    requires In(w.batch, RestorePart) && l.newId !in w.jobs && l.reading == Good
    requires !RaisesLate(w.batch, RestorePart, p, l)
    ensures Step(w, Advance(p, l)).batch ==
            if !l.schema then w.batch.(stage := Blocked, resume := Some(AssetRegistered))
            else if p.syncNode then w.batch.(restoredTarget := true, syncRun := Some(l.newId), stage := SyncQueued)
            else w.batch.(restoredTarget := true, stage := RawReady)
  {
  }

  lemma SyncGoesOn(w: World, p: Pipeline, l: Look)
    requires In(w.batch, SyncPart) && l.newId !in w.jobs && l.reading == Good && !l.recordFails
    requires !RaisesLate(w.batch, SyncPart, p, l)
    ensures Step(w, Advance(p, l)).batch ==
            if w.batch.encryptFirst then w.batch.(planned := true, stage := EncryptionReady)
            else if p.workflow then w.batch.(standardRun := Some(l.newId), stage := StandardizeQueued)
            else w.batch.(stage := RawReady)
  {
  }

  /** With one table to encrypt, and a plan that is ready where secure access asks for one, encryption comes next. */
  lemma StandardGoesOn(w: World, p: Pipeline, l: Look)
    requires In(w.batch, StandardPart) && l.newId !in w.jobs && l.reading == Good && !l.recordFails
    requires !RaisesLate(w.batch, StandardPart, p, l)
    ensures Step(w, Advance(p, l)).batch ==
            if w.batch.encryptFirst then w.batch.(stage := Completed)
            else if !p.autoEncrypt || l.eligible == 0 then w.batch.(stage := StandardReady)
            else if l.eligible == 1 && (p.access ==> l.planReady)
              then w.batch.(planned := true, stage := EncryptionReady)
            else w.batch.(stage := Blocked, resume := Some(StandardReady))
  {
  }

  // ---- encryption -------------------------------------------------------------------------------

  /** The job that a batch names is registered. */
  predicate JobKnown(w: World) {
    w.batch.job.Some? ==> w.batch.job.value in w.jobs
  }

  lemma StepKnowsItsJob(w: World, e: Event)
    requires JobKnown(w)
    ensures JobKnown(Step(w, e))
  {
  }

  lemma {:induction false} RunKnowsItsJob(encryptFirst: bool, events: seq<Event>)
    ensures JobKnown(Run(Created(encryptFirst), events))
    decreases |events|
  {
    if events != [] {
      var init := events[..|events| - 1];
      RunKnowsItsJob(encryptFirst, init);
      StepKnowsItsJob(Run(Created(encryptFirst), init), events[|events| - 1]);
    }
  }

  /** In every run a submission opens a new job of the batch; if it cannot be prepared, a resume leads back to it. */
  lemma EncryptionIsSubmitted(encryptFirst: bool, events: seq<Event>, p: Pipeline, l: Look, q: Pipeline, m: Look)
    requires var w := Run(Created(encryptFirst), events);
             w.batch.stage == EncryptionReady && w.batch.resume.None? && l.newId !in w.jobs
    ensures var w := Run(Created(encryptFirst), events);
            var after := Step(w, Advance(p, l));
            if w.batch.planned && !l.prepareFails then
              after == w.(batch := w.batch.(job := Some(l.newId), stage := Encrypting), jobs := w.jobs[l.newId := Open])
            else after.batch.stage == Failed && Step(after, Resume(q, m)) == w
  {
    RunKnowsItsJob(encryptFirst, events);
  }

  /** The request submits exactly what the loop would have, and refuses everything else. */
  lemma RequestSubmitsLikeTheLoop(w: World, p: Pipeline, l: Look)
    requires l.newId !in w.jobs
    ensures Step(w, Submit(p, l)) ==
            if w.batch.stage == EncryptionReady && p.access && w.batch.planned && !l.prepareFails
            then Step(w, Advance(p, l)) else w
  {
  }

  /**
   A job that is still open leaves the batch alone; a broken one fails it; a good one completes an
   unprotected batch.
   */
  lemma JobDecides(w: World, p: Pipeline, l: Look)
    requires w.batch.stage == Encrypting && w.batch.job.Some? && w.batch.job.value in w.jobs && l.newId !in w.jobs
    ensures var after := Step(w, Advance(p, l));
            match w.jobs[w.batch.job.value]
            case Open => after == w
            case Broken => after == w.(batch := w.batch.(stage := Failed,
              resume := Some(if w.batch.encryptFirst then EncryptionReady else StandardReady)))
            case Succeeded => !w.batch.encryptFirst && !l.recordFails ==>
              after == w.(batch := w.batch.(stage := Completed))
  {
  }

  /** A broken job is resumed before the encryption. */
  lemma BrokenJobIsRedone(w: World, p: Pipeline, l: Look, q: Pipeline, m: Look)
    requires w.batch.stage == Encrypting && w.batch.job.Some? && w.batch.job.value in w.jobs && l.newId !in w.jobs
    requires w.jobs[w.batch.job.value] == Broken
    ensures Step(Step(w, Advance(p, l)), Resume(q, m)) == w.(batch := w.batch.(
              stage := if w.batch.encryptFirst then EncryptionReady else StandardReady, resume := None))
  {
    JobDecides(w, p, l);
  }

  /** The end of a registered job is recorded as it is, and leaves the batch to its next step. */
  lemma JobEndIsRecorded(w: World, id: nat, ok: bool)
    ensures Step(w, JobEnds(id, ok)).batch == w.batch
    ensures Step(w, JobEnds(id, ok)).jobs == if id !in w.jobs then w.jobs
            else w.jobs[id := if ok then Succeeded else Broken]
  {
  }

  /** Where the job succeeded: a protected batch goes on to be standardised; what cannot be recorded is tried again. */
  lemma SucceededJobGoesOn(w: World, p: Pipeline, l: Look, q: Pipeline, m: Look)
    requires w.batch.stage == Encrypting && w.batch.job.Some? && w.batch.job.value in w.jobs && l.newId !in w.jobs
    requires w.jobs[w.batch.job.value] == Succeeded && w.batch.resume.None?
    ensures var after := Step(w, Advance(p, l));
            (l.recordFails ==> after.batch.stage == Failed && Step(after, Resume(q, m)) == w)
            && (!l.recordFails && w.batch.encryptFirst && p.workflow && !l.prepareFails ==>
                  after == w.(batch := w.batch.(standardRun := Some(l.newId), stage := StandardizeQueued)))
  {
  }

  /** An activation request does what the loop does to a batch that is being encrypted, but takes nothing half way. */
  lemma ActivationIsAStepOfTheLoop(w: World, p: Pipeline, l: Look)
    requires w.batch.stage == Encrypting && w.batch.job.Some? && l.newId !in w.jobs
    ensures var looped := Step(w, Advance(p, l));
            var failed := w.batch.job.value !in w.jobs
                          || (w.jobs[w.batch.job.value] == Succeeded
                              && (l.recordFails || (w.batch.encryptFirst && (!p.workflow || l.prepareFails))));
            Step(w, Activate(p, l)) == if failed then w else looped
  {
  }

  /** Without a plan the loop completes a standardised batch; with one it encrypts it first. */
  lemma PlanComesBeforeCompletion(w: World, p: Pipeline, l: Look)
    requires l.newId !in w.jobs
    ensures w.batch.stage == StandardReady ==>
              Step(w, Advance(p, l)) == w.(batch := w.batch.(stage := Completed))
              && Step(w, PlanEncryption) == w.(batch := w.batch.(planned := true, stage := EncryptionReady))
    ensures w.batch.stage != StandardReady ==> Step(w, PlanEncryption) == w
  {
  }

  // ---- the beginning, and resuming anything else -------------------------------------------------------

  /** A discovered batch that is resumed is where a scan that restores at once would have put it. */
  lemma ScanThenResume(w: World, l: Look, p: Pipeline, m: Look)
    requires w.batch.stage == Stabilizing && w.batch.resume.None?
    ensures Step(w, Scan(true, m)) == w.(batch := w.batch.(restoreTask := Some(m.newId), stage := RestoreQueued))
    ensures Step(Step(w, Scan(false, l)), Resume(p, m)) == Step(w, Scan(true, m))
    ensures Step(w, Scan(false, l)).batch.stage == Discovered
  {
  }

  /** Resumed anywhere else, a batch goes to its resume stage and forgets it. */
  lemma ResumeGoesToTheMark(w: World, p: Pipeline, l: Look)
    requires var from := if w.batch.resume.Some? then w.batch.resume.value else w.batch.stage;
             from !in {Discovered, RestoreQueued, Restoring, SyncQueued, Syncing, StandardizeQueued, Standardizing}
    ensures Step(w, Resume(p, l)) == w.(batch := w.batch.(
              stage := if w.batch.resume.Some? then w.batch.resume.value else w.batch.stage, resume := None))
  {
  }
}
