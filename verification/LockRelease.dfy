/**
 * When the lock of a persistent operation is freed again: only through its record in the store, or by the
 * handoff that is about to release it. A Save that returns after the sweeper removed the record hands the
 * lock to an operation nobody will ever release.
 */
module LockRelease {
  import opened Common
  import opened Transactions
  import opened Manager
  import opened ManagerInvariants
  import opened OperationStore
  import opened World
  import opened WorldInvariants
  import opened WorldSteps
  import opened WorldEffects
  import opened OperationTheorems
  import opened MutualExclusion
  import opened Progress
  import opened SweeperTheorems
  import opened OperationSweep
  import opened ResponseTheorems
  import DiskStore

  // ----- only a release takes the lock from an operation -----

  /** The step is a critical section that releases operation `op`. */
  ghost predicate ReleasesOp(w: World, step: Step, op: Id) {
    || (step.HandoffRelease? && step.id in w.hand && w.hand[step.id].op == op)
    || (step.SweepFree? && w.sweep.Running? && w.sweep.ops != [] && w.sweep.ops[0].op == op)
  }

  lemma OtherRelease(m: Mem, op: Id, other: Id)
    requires m.holder == Some(op) && op != other
    ensures BeginRelease(m, other).0 == m && EndRelease(m, other).holder == m.holder
  {
  }

  lemma OwnerIsNoTransaction(s: Setup, w: World, op: Id)
    requires Inv(s, w) && Owns(w.mem, op)
    ensures op in w.used && op !in w.exec && op !in w.mem.live && w.mem.locked
  {
    hide TablesAgree, CacheAgrees, OutboxAgrees, TimersAgree, BuffersAgree, OpIds, OpsOfSweep, OpsOfHands, Processes,
        Records, Safety, FramesAgree;
  }

  lemma ExecutorSpares(s: Setup, w: World, step: Step, op: Id)
    requires Inv(s, w) && Enabled(s, w, step) && OfExecutor(step) && Owns(w.mem, op)
    ensures Apply(s, w, step).mem.holder == Some(op)
  {
    hide Inv, MemInv, Conclude, MarkInFlight, Advance, BuffersAgree, TimersAgree;
    var id := step.id;
    OwnerIsNoTransaction(s, w, op);
    LiveFacts(s, w, id);
    if step.ExecPreparing? { AdvanceHolder(w.mem, id, PreparingDispatch); }
    else if step.ExecPublishing? { AdvanceHolder(w.mem, id, PendingPublish); }
    else if step.ExecInFlight? { MarkInFlightHolder(s.cfg, w.now, w.mem, id); }
    else if step.ExecFail? { ConcludeHolder(s.cfg, w.now, w.mem, id, Failed, Some(step.text)); }
  }

  lemma ResumesSpare(s: Setup, w: World, step: Step, op: Id)
    requires Inv(s, w) && OfHandoff(step) && HandoffEnabled(w, step) && Subject(step).Some? && Owns(w.mem, op)
    ensures HandoffApply(s.cfg, w, step).mem.holder == Some(op)
  {
    hide Inv, MemInv, ResumeSaved, ResumeFailed, FinishHandoff, RecOfHand;
    var id := step.id;
    OwnerIsNoTransaction(s, w, op);
    HandFacts(s, w, id);
    if step.HandoffSaved? { SavedHolder(s, w, id); }
    else if step.HandoffFailed? { FailedHolder(s, w, id); }
    else { FinishHolder(s, w, id); }
  }

  lemma PhasesSpare(cfg: Config, w: World, step: Step, op: Id)
    requires OfHandoff(step) && HandoffEnabled(w, step) && Subject(step).None? && Owns(w.mem, op)
    requires !ReleasesOp(w, step, op)
    ensures HandoffApply(cfg, w, step).mem.holder == Some(op)
  {
    hide BeginRelease, EndRelease, DeleteRecord;
    var other := w.hand[step.id].op;
    if other != op { OtherRelease(w.mem, op, other); } else { EndKeepsHolder(w.mem, op); }
  }

  lemma EndKeepsHolder(m: Mem, op: Id)
    ensures EndRelease(m, op).holder == m.holder && EndRelease(m, op).owner == m.owner
  {
  }

  lemma SweepsSpare(cfg: Config, w: World, step: Step, op: Id)
    requires OfSweeper(step) && SweeperEnabled(cfg.recordLimit, w, step) && Owns(w.mem, op) && !ReleasesOp(w, step, op)
    ensures SweeperApply(cfg, w, step).mem.holder == Some(op)
  {
    hide ActiveQuery, CheckRecord, NextRecord, SetSweep, StartSweep, DeleteRecord, FreeLock, BeginRelease, EndRelease;
    if step.SweepFree? {
      OtherRelease(w.mem, op, w.sweep.ops[0].op);
    } else if step.SweepFreedClear? {
      EndKeepsHolder(w.mem, w.sweep.ops[0].op);
    } else if step.SweepRemove? {
    } else if step.SweepFreedDelete? {
    } else {
      assert step.SweepRead? || step.SweepClock? || step.SweepCheck?;
    }
  }

  lemma MissingEvent(s: Setup, w: World, step: Step)
    requires Enabled(s, w, step) && !OfExecutor(step) && !OfHandoff(step) && !OfSweeper(step) && Subject(step).Some?
    requires step.id !in w.mem.live
    ensures Apply(s, w, step).mem == w.mem
  {
    hide TerminalTransition, Deliver;
  }

  lemma EventsSpare(s: Setup, w: World, step: Step, op: Id)
    requires Inv(s, w) && Enabled(s, w, step) && !OfExecutor(step) && !OfHandoff(step) && !OfSweeper(step)
    requires !step.Frame? && Owns(w.mem, op)
    ensures Apply(s, w, step).mem.holder == Some(op)
  {
    hide Inv, MemInv, Conclude, Complete, DispatchTimeoutFail, BeginHandoff, Timeout, BuffersAgree, TimersAgree;
    OwnerIsNoTransaction(s, w, op);
    if Subject(step).Some? && step.id !in w.mem.live {
      MissingEvent(s, w, step);
    } else if step.ResultComplete? {
      CompleteHolder(s.cfg, w.now, w.mem, step.id, step.response);
    } else if step.ResultFail? {
      LiveFacts(s, w, step.id);
      ConcludeHolder(s.cfg, w.now, w.mem, step.id, Failed, step.response);
    } else if step.ResultRetain? {
      AdvanceHolder(w.mem, step.id, InFlight);
    } else if step.TimerFires? {
      TimeoutHolder(s, w, step.id);
    } else if step.DispatchTimerFires? {
      LiveFacts(s, w, step.id);
      DispatchTimeoutHolder(s.cfg, w.now, w.mem, step.id);
    }
  }

  lemma FrameSpares(s: Setup, w: World, step: Step, op: Id)
    requires Inv(s, w) && Enabled(s, w, step) && step.Frame? && Owns(w.mem, op)
    ensures Apply(s, w, step).mem.holder == Some(op) && op !in Apply(s, w, step).mem.live
  {
    hide Inv, ReceiveFrame;
    OwnerIsNoTransaction(s, w, op);
    FrameOpens(s, w, step.f, step.degraded, step.id, step.text);
  }

  lemma HolderStays(s: Setup, w: World, step: Step, op: Id)
    requires Inv(s, w) && Enabled(s, w, step) && Owns(w.mem, op) && !ReleasesOp(w, step, op) && !step.Frame?
    ensures Apply(s, w, step).mem.holder == Some(op)
  {
    hide Inv, HandoffApply, HandoffEnabled, SweeperApply, SweeperEnabled, ExecutorApply, ExecutorEnabled, EventApply,
        EventEnabled, ReleasesOp;
    if OfExecutor(step) { ExecutorSpares(s, w, step, op); }
    else if OfHandoff(step) {
      if Subject(step).Some? { ResumesSpare(s, w, step, op); } else { PhasesSpare(s.cfg, w, step, op); }
    }
    else if OfSweeper(step) { SweepsSpare(s.cfg, w, step, op); }
    else { EventsSpare(s, w, step, op); }
  }

  /** An operation keeps the lock through every step but its own release. */
  lemma OwnerStays(s: Setup, w: World, step: Step, op: Id)
    requires Inv(s, w) && Enabled(s, w, step) && Owns(w.mem, op) && !ReleasesOp(w, step, op)
    ensures Owns(Apply(s, w, step).mem, op)
  {
    hide Inv, Apply, Enabled, ReleasesOp;
    var v := Apply(s, w, step);
    OwnerIsNoTransaction(s, w, op);
    StepKeeps(s, w, step);
    if step.Frame? {
      FrameSpares(s, w, step, op);
    } else {
      HolderStays(s, w, step, op);
      if op in v.mem.live { WasLive(s, w, step, op); }
    }
    HolderOutsideTable(s, v, op);
  }

  lemma HolderOutsideTable(s: Setup, w: World, op: Id)
    requires Inv(s, w) && w.mem.holder == Some(op) && op !in w.mem.live
    ensures Owns(w.mem, op)
  {
    hide TablesAgree, CacheAgrees, OutboxAgrees, TimersAgree, BuffersAgree, Identities, Processes, Records, Safety,
        FramesAgree;
  }

  // ----- what a step does to the store, the sweeper's list and the handoffs -----

  lemma RecordName(s: Setup, w: World, id: Id)
    requires Inv(s, w) && id in w.hand && w.hand[id].phase.Saving?
    ensures w.hand[id].phase.rec.op == w.hand[id].op
  {
    hide MemInv, Identities, Processes, RecsOfSweep, Safety, FramesAgree;
    assert RecOfHand(w.recs, w.store, w.hand[id]);
  }

  lemma StoreByHandoff(s: Setup, w: World, step: Step, k: Id)
    requires Inv(s, w) && OfHandoff(step) && HandoffEnabled(w, step)
    ensures var v := HandoffApply(s.cfg, w, step);
            && (k in v.store && k !in w.store ==> step.HandoffWrite? && w.hand[step.id].op == k)
            && (k in w.store && k !in v.store ==> step.HandoffDelete? && w.hand[step.id].op == k)
  {
    hide Inv, ResumeSaved, ResumeFailed, Deliver, SetPhase, BeginRelease, EndRelease;
    if step.HandoffWrite? { RecordName(s, w, step.id); }
  }

  lemma StoreBySweeper(cfg: Config, w: World, step: Step, k: Id)
    requires OfSweeper(step) && SweeperEnabled(cfg.recordLimit, w, step)
    ensures var v := SweeperApply(cfg, w, step);
            && (k in v.store ==> k in w.store)
            && (k in w.store && k !in v.store ==> Deletes(step) && w.sweep.ops[0].op == k)
  {
    hide ActiveQuery, CheckRecord, NextRecord, SetSweep, StartSweep, FreeLock, EndRelease;
    if step.SweepRemove? {
    } else if step.SweepFreedDelete? {
    } else {
      assert step.SweepRead? || step.SweepClock? || step.SweepCheck? || step.SweepFree? || step.SweepFreedClear?;
    }
  }

  /** Records appear by a Save and disappear by the deletions of a handoff or the sweeper. */
  lemma StoreChanges(s: Setup, w: World, step: Step, k: Id)
    requires Inv(s, w) && Enabled(s, w, step)
    ensures var v := Apply(s, w, step);
            && (k in v.store && k !in w.store ==> step.HandoffWrite? && step.id in w.hand && w.hand[step.id].op == k)
            && (k in w.store && k !in v.store ==>
                  || (step.HandoffDelete? && HandoffEnabled(w, step) && w.hand[step.id].op == k)
                  || (Deletes(step) && w.sweep.Running? && w.sweep.ops != [] && w.sweep.ops[0].op == k))
  {
    hide Inv, HandoffApply, SweeperApply, ExecutorApply, ExecutorEnabled, EventApply, EventEnabled;
    if OfHandoff(step) {
      StoreByHandoff(s, w, step, k);
    } else if OfSweeper(step) {
      StoreBySweeper(s.cfg, w, step, k);
    } else {
      KeptByOthers(s, w, step);
    }
  }

  /** The sweeper's list stays, loses its head, or is read afresh from the store. */
  ghost predicate ListMoves(limit: int, w: World, v: World, step: Step) {
    || (SweepOps(v.sweep) == SweepOps(w.sweep) && !step.SweepRemove?)
    || (SweepOps(w.sweep) != [] && SweepOps(v.sweep) == SweepOps(w.sweep)[1..])
    || (step.SweepRead? && SweepOps(v.sweep) == step.ops && ActiveQuery(w.store, limit, step.ops) && v.store == w.store)
  }

  lemma ListBySweeper(cfg: Config, w: World, step: Step)
    requires OfSweeper(step) && SweeperEnabled(cfg.recordLimit, w, step)
    ensures ListMoves(cfg.recordLimit, w, SweeperApply(cfg, w, step), step)
    ensures SweeperApply(cfg, w, step).sweep.Running? ==> SweeperApply(cfg, w, step).sweep.ops != []
  {
    hide ActiveQuery, BeginRelease, EndRelease, Compatible, Expired;
    if step.SweepRemove? {
    } else if step.SweepFreedDelete? {
    } else if step.SweepCheck? {
    } else if step.SweepFree? {
    } else {
      assert step.SweepRead? || step.SweepClock? || step.SweepFreedClear?;
    }
  }

  lemma ListChanges(s: Setup, w: World, step: Step)
    requires Enabled(s, w, step)
    ensures ListMoves(s.cfg.recordLimit, w, Apply(s, w, step), step)
    ensures (w.sweep.Running? ==> w.sweep.ops != []) ==>
              (Apply(s, w, step).sweep.Running? ==> Apply(s, w, step).sweep.ops != [])
  {
    hide HandoffApply, HandoffEnabled, SweeperApply, SweeperEnabled, ExecutorApply, ExecutorEnabled, EventApply,
        EventEnabled, ActiveQuery;
    if OfHandoff(step) {
      SweepOfHandoff(s.cfg, w, step);
    } else if OfSweeper(step) {
      ListBySweeper(s.cfg, w, step);
    } else {
      KeptByOthers(s, w, step);
    }
  }

  lemma HandIds(s: Setup, w: World, id: Id)
    requires Inv(s, w) && id in w.hand
    ensures id in w.exec && id in w.used
  {
    HandFacts(s, w, id);
    hide MemInv, Processes, Records, Safety, FramesAgree;
  }

  /** A handoff keeps its operation, and a new one has a new operation. */
  lemma HandChanges(s: Setup, w: World, step: Step, id: Id)
    requires Inv(s, w) && Enabled(s, w, step) && id in Apply(s, w, step).hand
    ensures var v := Apply(s, w, step);
            || (id in w.hand && v.hand[id].op == w.hand[id].op)
            || (step.ResultRetain? && step.id == id && v.hand[id].op == step.op && v.mem.owner.TransferPending?)
  {
    hide Inv, HandoffApply, HandoffEnabled, SweeperApply, SweeperEnabled, ExecutorApply, ExecutorEnabled, EventApply,
        EventEnabled;
    if step.HandoffSaved? {
      SavedHands(s, w, step);
    } else if OfHandoff(step) {
      DropsByHandoff(s.cfg, w, step);
    } else if OfSweeper(step) {
      SweeperWaits(s, w, step);
    } else if OfExecutor(step) {
      DropsByExecutor(s, w, step);
    } else if step.Frame? {
      FrameHands(s, w, step);
    } else if step.ResultRetain? {
      RetainHandOps(s, w, step, id);
    } else {
      DropsByEvent(s, w, step);
    }
  }

  lemma SavedHands(s: Setup, w: World, step: Step)
    requires Enabled(s, w, step) && step.HandoffSaved?
    ensures HandsShrink(w, Apply(s, w, step))
    ensures step.id in Apply(s, w, step).hand ==> Apply(s, w, step).hand[step.id].phase.Releasing?
  {
    hide ResumeSaved;
  }

  lemma FrameHands(s: Setup, w: World, step: Step)
    requires Enabled(s, w, step) && step.Frame?
    ensures Apply(s, w, step).hand == w.hand
  {
    hide ReceiveFrame;
    FrameForm(s, w, step.f, step.degraded, step.id, step.text);
  }

  lemma RetainHandOps(s: Setup, w: World, step: Step, id: Id)
    requires Enabled(s, w, step) && step.ResultRetain? && id in Apply(s, w, step).hand
    ensures var v := Apply(s, w, step);
            || (id in w.hand && v.hand[id].op == w.hand[id].op)
            || (step.id == id && v.hand[id].op == step.op && v.mem.owner.TransferPending?)
  {
  }

  // ----- stuck for ever -----

  /** Operation `op` owns the lock and nothing left in the process knows how to release it. */
  ghost predicate Stuck(w: World, op: Id) {
    && Owns(w.mem, op) && op !in w.store
    && (forall i :: 0 <= i < |SweepOps(w.sweep)| ==> SweepOps(w.sweep)[i].op != op)
    && (forall id :: id in w.hand ==> w.hand[id].op != op)
  }

  lemma StuckStep(s: Setup, w: World, step: Step, op: Id)
    requires Inv(s, w) && Enabled(s, w, step) && Stuck(w, op)
    ensures Stuck(Apply(s, w, step), op)
  {
    hide Inv, Apply, Enabled, ActiveQuery;
    var v := Apply(s, w, step);
    OwnerIsNoTransaction(s, w, op);
    NotReleased(w, step, op);
    OwnerStays(s, w, step, op);
    StoreChanges(s, w, step, op);
    ListChanges(s, w, step);
    if step.SweepRead? && SweepOps(v.sweep) == step.ops { QueryOps(w.store, s.cfg.recordLimit, step); }
    forall id | id in v.hand ensures v.hand[id].op != op {
      HandChanges(s, w, step, id);
    }
  }

  lemma NotReleased(w: World, step: Step, op: Id)
    requires Stuck(w, op)
    ensures !ReleasesOp(w, step, op)
  {
    assert w.sweep.Running? && w.sweep.ops != [] ==> SweepOps(w.sweep)[0].op != op;
  }

  lemma QueryOps(store: map<Id, Rec>, limit: int, step: Step)
    requires step.SweepRead?
    ensures ActiveQuery(store, limit, step.ops) ==> forall i :: 0 <= i < |step.ops| ==> step.ops[i].op in store
  {
  }

  lemma {:induction false} StuckRun(s: Setup, w: World, run: seq<Step>, op: Id)
    requires Inv(s, w) && ValidRun(s, w, run) && Stuck(w, op)
    ensures Stuck(Final(s, w, run), op)
    decreases |run|
  {
    hide Inv, Apply, Enabled, Stuck;
    if run != [] {
      StuckStep(s, w, run[0], op);
      StepKeeps(s, w, run[0]);
      StuckRun(s, Apply(s, w, run[0]), run[1..], op);
    }
  }

  /** Once stuck, the operation owns the lock in every later state of the process. */
  lemma StuckForever(s: Setup, w: World, run: seq<Step>, op: Id)
    requires Reachable(s, w) && ValidRun(s, w, run) && Stuck(w, op)
    ensures Owns(Final(s, w, run).mem, op) && op !in Final(s, w, run).store
  {
    hide Inv, Reachable;
    ReachableInv(s, w);
    StuckRun(s, w, run, op);
  }

  // ----- two more invariants -----

  /** A handoff whose operation owns the lock is about to release it. */
  ghost predicate Bound(w: World) {
    forall id :: id in w.hand && Owns(w.mem, w.hand[id].op) ==> w.hand[id].phase.Releasing?
  }

  /** The sweeper lists every operation once, and a listed operation that may need its record has it in the store. */
  ghost predicate Listed(w: World) {
    && (w.sweep.Running? ==> w.sweep.ops != [])
    && (forall i, j :: 0 <= i < j < |SweepOps(w.sweep)| ==> SweepOps(w.sweep)[i].op != SweepOps(w.sweep)[j].op)
    && (forall i :: 0 <= i < |SweepOps(w.sweep)| ==>
          SweepOps(w.sweep)[i].op in w.store || !IsProtected(w, SweepOps(w.sweep)[i].op))
  }

  lemma OwnedBefore(s: Setup, w: World, step: Step, op: Id)
    requires Inv(s, w) && Enabled(s, w, step) && !step.HandoffSaved? && Owns(Apply(s, w, step).mem, op)
    ensures Owns(w.mem, op)
  {
    hide Inv, HandoffApply, HandoffEnabled, SweeperApply, SweeperEnabled, ExecutorApply, ExecutorEnabled, EventApply,
        EventEnabled;
    if OfHandoff(step) {
      DropsByHandoff(s.cfg, w, step);
    } else if OfSweeper(step) {
      DropsBySweeper(s.cfg, w, step);
    } else {
      LockOfOthers(s, w, step, op);
    }
  }

  lemma SavedBound(s: Setup, w: World, step: Step, id: Id)
    requires Inv(s, w) && Bound(w) && Enabled(s, w, step) && step.HandoffSaved? && id in Apply(s, w, step).hand
    requires Owns(Apply(s, w, step).mem, Apply(s, w, step).hand[id].op)
    ensures Apply(s, w, step).hand[id].phase.Releasing?
  {
    hide Inv, Apply, Enabled, IsProtected;
    var v := Apply(s, w, step);
    SavedHands(s, w, step);
    if id != step.id {
      HandIds(s, w, id);
      OthersWait(s, w, step, id);
      OwnerIsProtected(v, v.hand[id].op);
      SavedStepProtects(s, w, step, v.hand[id].op);
      SavedIsEnabled(s, w, step);
      OneHandPerOperation(s, w, id, step.id);
    }
  }

  lemma SavedIsEnabled(s: Setup, w: World, step: Step)
    requires Enabled(s, w, step) && step.HandoffSaved?
    ensures step.id in w.hand
  {
  }

  lemma OneHandPerOperation(s: Setup, w: World, i: Id, j: Id)
    requires Inv(s, w) && i in w.hand && j in w.hand
    ensures w.hand[i].op == w.hand[j].op ==> i == j
  {
    hide MemInv, Processes, Records, Safety, FramesAgree;
  }

  lemma ReleaseFreesOwner(s: Setup, w: World, id: Id)
    requires Inv(s, w) && id in w.hand && w.hand[id].phase.Releasing? && Owns(w.mem, w.hand[id].op)
    ensures Enabled(s, w, HandoffRelease(id)) && Apply(s, w, HandoffRelease(id)).mem.owner.LockNone?
  {
    hide Inv, IsProtected;
    ReleasingFacts(s, w, w.hand[id].op);
    OwnerIsProtected(w, w.hand[id].op);
  }

  lemma OwnPhase(s: Setup, w: World, step: Step)
    requires Enabled(s, w, step) && OfHandoff(step)
    ensures step.id in w.hand && w.hand[step.id].phase.Releasing? ==> step.HandoffRelease?
  {
  }

  lemma HandBound(s: Setup, w: World, step: Step, id: Id)
    requires Inv(s, w) && Bound(w) && Enabled(s, w, step) && OfHandoff(step) && !step.HandoffSaved?
    requires id in Apply(s, w, step).hand && Owns(Apply(s, w, step).mem, Apply(s, w, step).hand[id].op)
    ensures Apply(s, w, step).hand[id].phase.Releasing?
  {
    hide Inv, Apply, Enabled;
    HandChanges(s, w, step, id);
    OwnedBefore(s, w, step, w.hand[id].op);
    if id != step.id {
      HandIds(s, w, id);
      OthersWait(s, w, step, id);
    } else {
      OwnPhase(s, w, step);
      ReleaseFreesOwner(s, w, id);
    }
  }

  lemma OtherBound(s: Setup, w: World, step: Step, id: Id)
    requires Inv(s, w) && Bound(w) && Enabled(s, w, step) && !OfHandoff(step)
    requires id in Apply(s, w, step).hand && Owns(Apply(s, w, step).mem, Apply(s, w, step).hand[id].op)
    ensures Apply(s, w, step).hand[id].phase.Releasing?
  {
    hide Inv, Apply, Enabled;
    HandChanges(s, w, step, id);
    OwnedBefore(s, w, step, w.hand[id].op);
    SameHands(s, w, step);
  }

  lemma SameHands(s: Setup, w: World, step: Step)
    requires Enabled(s, w, step) && !OfHandoff(step)
    ensures Apply(s, w, step).hand == w.hand || Apply(s, w, step).mem.owner.TransferPending?
  {
    hide HandoffApply, HandoffEnabled, SweeperApply, SweeperEnabled, ExecutorApply, ExecutorEnabled, EventApply,
        EventEnabled;
    if OfSweeper(step) {
      SweeperWaits(s, w, step);
    } else if OfExecutor(step) {
      DropsByExecutor(s, w, step);
    } else if step.Frame? {
      FrameHands(s, w, step);
    } else if step.ResultRetain? {
      RetainOrNot(s, w, step);
    } else {
      DropsByEvent(s, w, step);
    }
  }

  lemma RetainOrNot(s: Setup, w: World, step: Step)
    requires Enabled(s, w, step) && step.ResultRetain?
    ensures Apply(s, w, step).hand == w.hand || Apply(s, w, step).mem.owner.TransferPending?
  {
  }

  lemma BoundStep(s: Setup, w: World, step: Step)
    requires Inv(s, w) && Bound(w) && Enabled(s, w, step)
    ensures Bound(Apply(s, w, step))
  {
    hide Inv, Apply, Enabled;
    var v := Apply(s, w, step);
    forall id | id in v.hand && Owns(v.mem, v.hand[id].op) ensures v.hand[id].phase.Releasing? {
      if step.HandoffSaved? { SavedBound(s, w, step, id); }
      else if OfHandoff(step) { HandBound(s, w, step, id); }
      else { OtherBound(s, w, step, id); }
    }
  }

  lemma ListedIds(s: Setup, w: World, i: nat)
    requires Inv(s, w) && i < |SweepOps(w.sweep)|
    ensures SweepOps(w.sweep)[i].op in w.used
  {
    hide MemInv, Processes, Records, Safety, FramesAgree;
  }

  lemma FreedIsUnprotected(s: Setup, w: World, step: Step)
    requires Inv(s, w) && Enabled(s, w, step) && step.SweepFreedDelete?
    ensures w.sweep.Running? && w.sweep.ops != [] && !IsProtected(w, w.sweep.ops[0].op)
  {
    hide MemInv, Identities, Processes, Records, FramesAgree;
  }

  /** A record on the sweeper's list survives the step, or nobody needs it. */
  lemma ListedSurvives(s: Setup, w: World, step: Step, j: nat)
    requires Inv(s, w) && Listed(w) && Enabled(s, w, step) && j < |SweepOps(w.sweep)|
    requires step.SweepRemove? ==> j > 0
    ensures var op := SweepOps(w.sweep)[j].op; op in Apply(s, w, step).store || !IsProtected(Apply(s, w, step), op)
  {
    hide Inv, Apply, Enabled, IsProtected;
    var v := Apply(s, w, step);
    var op := SweepOps(w.sweep)[j].op;
    ListedIds(s, w, j);
    StoreChanges(s, w, step, op);
    assert j > 0 ==> SweepOps(w.sweep)[0].op != op;
    if IsProtected(v, op) { ProtectedStep(s, w, step, op); }
    if step.HandoffDelete? { DeletedHand(s, w, step); }
    if step.SweepFreedDelete? { FreedIsUnprotected(s, w, step); }
  }

  lemma DeletedHand(s: Setup, w: World, step: Step)
    requires Inv(s, w) && Enabled(s, w, step) && step.HandoffDelete?
    ensures step.id in w.hand && !IsProtected(w, w.hand[step.id].op)
  {
    hide Inv, Protected;
    ReleasedFacts(s, w, step.id);
  }

  lemma ListStaysListed(s: Setup, w: World, step: Step)
    requires Inv(s, w) && Listed(w) && Enabled(s, w, step)
    ensures Listed(Apply(s, w, step))
  {
    hide Inv, Apply, Enabled, IsProtected;
    var v := Apply(s, w, step);
    ListChanges(s, w, step);
    var ops := SweepOps(v.sweep);
    forall i | 0 <= i < |ops| ensures ops[i].op in v.store || !IsProtected(v, ops[i].op) {
      if ops == SweepOps(w.sweep) && !step.SweepRemove? {
        ListedSurvives(s, w, step, i);
      } else if SweepOps(w.sweep) != [] && ops == SweepOps(w.sweep)[1..] {
        ListedSurvives(s, w, step, i + 1);
      }
    }
  }

  lemma {:induction false} RunBound(s: Setup, w: World, run: seq<Step>)
    requires Inv(s, w) && Bound(w) && Listed(w) && ValidRun(s, w, run)
    ensures Bound(Final(s, w, run)) && Listed(Final(s, w, run))
    decreases |run|
  {
    hide Inv, Apply, Enabled, Bound, Listed;
    if run != [] {
      BoundStep(s, w, run[0]);
      ListStaysListed(s, w, run[0]);
      StepKeeps(s, w, run[0]);
      RunBound(s, Apply(s, w, run[0]), run[1..]);
    }
  }

  lemma StartBound(s: Setup, before: map<Id, Rec>, ops: seq<Rec>, w: World)
    requires Started(s, before, ops, w)
    ensures Bound(w) && Listed(w)
  {
    hide ActiveQuery;
  }

  lemma ReachableBound(s: Setup, w: World)
    requires Reachable(s, w)
    ensures Inv(s, w) && Bound(w) && Listed(w)
  {
    hide Inv, Bound, Listed, ValidRun, Final, Started;
    ReachableInv(s, w);
    var before, ops, w0, run :| Leads(s, before, ops, w0, run, w);
    StartKeeps(s, before, ops, w0);
    StartBound(s, before, ops, w0);
    RunBound(s, w0, run);
  }

  /** Every run from a reachable state leads to a reachable state. */
  lemma ReachableAfter(s: Setup, w: World, run: seq<Step>)
    requires Reachable(s, w) && ValidRun(s, w, run)
    ensures Reachable(s, Final(s, w, run))
  {
    hide ValidRun, Final, Started;
    var before, ops, w0, first :| Leads(s, before, ops, w0, first, w);
    RunsCompose(s, w0, first, run);
    assert Leads(s, before, ops, w0, first + run, Final(s, w, run));
  }

  // ----- the sweeper can always finish, and a query always has an answer -----

  ghost function PhaseWork(phase: SweepPhase): nat {
    match phase
    case Checking => 4
    case Freeing => 3
    case FreedDeleting => 2
    case FreedClearing => 1
    case Removing => 0
  }

  ghost function SweepWork(sweep: Sweep): nat {
    match sweep
    case Idle => 0
    case Loaded(ops) => 5 * |ops| + 1
    case Running(ops, _, phase) => if ops == [] then 0 else 5 * (|ops| - 1) + PhaseWork(phase) + 1
  }

  /** The lock is as before, up to the release marker. */
  ghost predicate SameLock(m: Mem, n: Mem) {
    n == m.(releasing := n.releasing)
  }

  ghost predicate Released(m: Mem, n: Mem) {
    m.owner.OwnedByOperation? && n.owner.LockNone?
  }

  /** One step closer to an idle sweeper, with nothing deleted. */
  ghost predicate Advances(w: World, v: World) {
    && v == w.(sweep := v.sweep, mem := v.mem) && (SameLock(w.mem, v.mem) || Released(w.mem, v.mem))
    && (v.sweep.Running? ==> v.sweep.ops != []) && SweepWork(v.sweep) < SweepWork(w.sweep)
  }

  lemma NextAdvances(w: World, m: Mem)
    requires w.sweep.Running? && w.sweep.ops != [] && (SameLock(w.mem, m) || Released(w.mem, m))
    ensures Advances(w, NextRecord(w.(mem := m)))
  {
  }

  lemma PhaseAdvances(w: World, m: Mem, phase: SweepPhase)
    requires w.sweep.Running? && w.sweep.ops != [] && (SameLock(w.mem, m) || Released(w.mem, m))
    requires PhaseWork(phase) < PhaseWork(w.sweep.phase)
    ensures Advances(w, SetSweep(w.(mem := m), phase))
  {
  }

  lemma ClockAdvances(w: World)
    requires w.sweep.Loaded?
    ensures Advances(w, StartSweep(w))
  {
  }

  lemma CheckAdvances(cfg: Config, w: World)
    requires Sweeping(w, Checking)
    ensures Advances(w, CheckRecord(cfg, w))
  {
    hide Advances, Compatible, Expired, NextRecord, SetSweep;
    NextAdvances(w, w.mem);
    PhaseAdvances(w, w.mem, Removing);
    PhaseAdvances(w, w.mem, Freeing);
  }

  lemma FreeAdvances(w: World)
    requires Sweeping(w, Freeing)
    ensures Advances(w, FreeLock(w))
  {
    hide Advances, NextRecord, SetSweep;
    var m := BeginRelease(w.mem, w.sweep.ops[0].op).0;
    NextAdvances(w, w.mem);
    PhaseAdvances(w, m, FreedDeleting);
  }

  lemma IsSweeperStep(s: Setup, w: World, step: Step)
    requires OfSweeper(step) && SweeperEnabled(s.cfg.recordLimit, w, step)
    ensures Enabled(s, w, step) && Apply(s, w, step) == SweeperApply(s.cfg, w, step)
  {
    hide SweeperEnabled, SweeperApply;
  }

  lemma RunningAdvances(cfg: Config, w: World) returns (step: Step)
    requires w.sweep.Running? && w.sweep.ops != []
    ensures OfSweeper(step) && SweeperEnabled(cfg.recordLimit, w, step) && Advances(w, SweeperApply(cfg, w, step))
  {
    hide Advances, CheckRecord, FreeLock, NextRecord, SetSweep, EndRelease;
    match w.sweep.phase
    case Checking => step := SweepCheck; CheckAdvances(cfg, w);
    case Removing => step := SweepRemove(false); NextAdvances(w, w.mem);
    case Freeing => step := SweepFree; FreeAdvances(w);
    case FreedDeleting => step := SweepFreedDelete(false); PhaseAdvances(w, w.mem, FreedClearing);
    case FreedClearing =>
      step := SweepFreedClear;
      EndSameLock(w.mem, w.sweep.ops[0].op);
      NextAdvances(w, EndRelease(w.mem, w.sweep.ops[0].op));
  }

  /** The sweeper can take its next step without deleting anything. */
  lemma SweepAdvances(s: Setup, w: World) returns (step: Step)
    requires !w.sweep.Idle? && (w.sweep.Running? ==> w.sweep.ops != [])
    ensures Enabled(s, w, step) && Advances(w, Apply(s, w, step))
  {
    hide Advances, Apply, Enabled, StartSweep;
    if w.sweep.Loaded? {
      step := SweepClock;
      ClockAdvances(w);
    } else {
      step := RunningAdvances(s.cfg, w);
    }
    IsSweeperStep(s, w, step);
  }

  lemma EndSameLock(m: Mem, op: Id)
    ensures SameLock(m, EndRelease(m, op))
  {
  }

  lemma {:induction false} SweepFinishes(s: Setup, w: World) returns (run: seq<Step>)
    requires w.sweep.Running? ==> w.sweep.ops != []
    ensures ValidRun(s, w, run)
    ensures var v := Final(s, w, run);
            && v == w.(sweep := v.sweep, mem := v.mem)
            && ((v.sweep.Idle? && SameLock(w.mem, v.mem)) || Released(w.mem, v.mem))
    decreases SweepWork(w.sweep)
  {
    hide Apply, Enabled, SweepWork;
    if w.sweep.Idle? {
      run := [];
    } else {
      var step := SweepAdvances(s, w);
      OneStep(s, w, step);
      run := [step];
      var v := Apply(s, w, step);
      if !Released(w.mem, v.mem) {
        var rest := SweepFinishes(s, v);
        RunsCompose(s, w, [step], rest);
        run := [step] + rest;
      }
    }
  }

  lemma {:induction false} Listing(store: map<Id, Rec>, ids: set<Id>) returns (ops: seq<Rec>)
    requires ids <= store.Keys && forall op :: op in store ==> store[op].op == op
    ensures DiskStore.Distinct(ops)
    ensures forall i :: 0 <= i < |ops| ==> ops[i].op in ids && store[ops[i].op] == ops[i] && ops[i].active
    ensures forall op :: op in ids && store[op].active ==> store[op] in ops
    decreases ids
  {
    if ids == {} {
      ops := [];
    } else {
      var op :| op in ids;
      ops := Listing(store, ids - {op});
      if store[op].active { ops := ops + [store[op]]; }
    }
  }

  /** Every store has an answer to its query. */
  lemma QueryHasAnswer(store: map<Id, Rec>, limit: int) returns (ops: seq<Rec>)
    requires forall op :: op in store ==> store[op].op == op
    ensures ActiveQuery(store, limit, ops)
  {
    hide ActiveQuery, DiskStore.Take;
    var all := Listing(store, store.Keys);
    var sorted := DiskStore.SortNewest(all);
    DiskStore.DistinctByCount(all, sorted);
    forall i | 0 <= i < |sorted|
      ensures sorted[i].op in store && store[sorted[i].op] == sorted[i] && sorted[i].active
    {
      assert sorted[i] in multiset(all);
    }
    forall op | op in store && store[op].active ensures store[op] in sorted {
      assert store[op] in multiset(all);
    }
    DiskStore.TakeAnswers(store, limit, sorted);
    ops := DiskStore.Take(sorted, limit);
  }

  // ----- within its time to live an operation keeps the lock -----

  /** The sweeper frees only what had expired when its sweep began. */
  ghost predicate FreesOld(ttl: int, w: World) {
    w.sweep.Running? && w.sweep.ops != [] && w.sweep.phase.Freeing? ==>
      w.sweep.ops[0].updatedAt.None? || w.sweep.at - w.sweep.ops[0].updatedAt.value > ttl
  }

  lemma SweeperFreesOld(cfg: Config, w: World, step: Step)
    requires OfSweeper(step) && SweeperEnabled(cfg.recordLimit, w, step) && FreesOld(cfg.sweeperTTL, w)
    ensures FreesOld(cfg.sweeperTTL, SweeperApply(cfg, w, step))
  {
    hide ActiveQuery, BeginRelease, EndRelease, Compatible;
    if step.SweepRemove? {
    } else if step.SweepFreedDelete? {
    } else if step.SweepCheck? {
    } else if step.SweepFree? {
    } else {
      assert step.SweepRead? || step.SweepClock? || step.SweepFreedClear?;
    }
  }

  lemma StepFreesOld(s: Setup, w: World, step: Step)
    requires Enabled(s, w, step) && FreesOld(s.cfg.sweeperTTL, w)
    ensures FreesOld(s.cfg.sweeperTTL, Apply(s, w, step))
  {
    hide HandoffApply, HandoffEnabled, SweeperApply, SweeperEnabled, ExecutorApply, ExecutorEnabled, EventApply,
        EventEnabled;
    if OfHandoff(step) {
      SweepOfHandoff(s.cfg, w, step);
    } else if OfSweeper(step) {
      SweeperFreesOld(s.cfg, w, step);
    } else {
      KeptByOthers(s, w, step);
    }
  }

  lemma {:induction false} RunFreesOld(s: Setup, w: World, run: seq<Step>)
    requires ValidRun(s, w, run) && FreesOld(s.cfg.sweeperTTL, w)
    ensures FreesOld(s.cfg.sweeperTTL, Final(s, w, run))
    decreases |run|
  {
    hide Apply, Enabled, FreesOld;
    if run != [] {
      StepFreesOld(s, w, run[0]);
      RunFreesOld(s, Apply(s, w, run[0]), run[1..]);
    }
  }

  lemma ReachableFreesOld(s: Setup, w: World)
    requires Reachable(s, w)
    ensures FreesOld(s.cfg.sweeperTTL, w)
  {
    hide ValidRun, Final;
    var before, ops, w0, run :| Leads(s, before, ops, w0, run, w);
    RunFreesOld(s, w0, run);
  }

  /** Operation `op` owns the lock, is in no handoff, and its record is within its time to live at time `t`. */
  ghost predicate YoungOwner(ttl: int, w: World, op: Id, t: Time) {
    && Owns(w.mem, op) && (forall id :: id in w.hand ==> w.hand[id].op != op)
    && op in w.recs && w.recs[op].updatedAt.Some? && t - w.recs[op].updatedAt.value <= ttl
  }

  lemma YoungIsNotReleased(s: Setup, w: World, step: Step, op: Id, t: Time)
    requires Inv(s, w) && Enabled(s, w, step) && FreesOld(s.cfg.sweeperTTL, w)
    requires YoungOwner(s.cfg.sweeperTTL, w, op, t) && w.now <= t
    ensures !ReleasesOp(w, step, op)
  {
    hide Inv, Protected, SweepSafe;
    if step.SweepFree? { SweepFacts(s, w); }
  }

  lemma YoungStep(s: Setup, w: World, step: Step, op: Id, t: Time)
    requires Inv(s, w) && Enabled(s, w, step) && FreesOld(s.cfg.sweeperTTL, w)
    requires YoungOwner(s.cfg.sweeperTTL, w, op, t) && w.now <= t
    ensures YoungOwner(s.cfg.sweeperTTL, Apply(s, w, step), op, t)
  {
    hide Inv, Apply, Enabled, FreesOld, ReleasesOp;
    var v := Apply(s, w, step);
    YoungIsNotReleased(s, w, step, op, t);
    OwnerStays(s, w, step, op);
    RecsStep(s, w, step, op);
    forall id | id in v.hand ensures v.hand[id].op != op {
      HandChanges(s, w, step, id);
    }
  }

  lemma {:induction false} YoungRun(s: Setup, w: World, run: seq<Step>, op: Id, t: Time)
    requires Inv(s, w) && ValidRun(s, w, run) && FreesOld(s.cfg.sweeperTTL, w)
    requires YoungOwner(s.cfg.sweeperTTL, w, op, t) && Final(s, w, run).now <= t
    ensures YoungOwner(s.cfg.sweeperTTL, Final(s, w, run), op, t)
    decreases |run|
  {
    hide Inv, Apply, Enabled, FreesOld, YoungOwner;
    if run != [] {
      ClockRuns(s, w, run);
      StepFreesOld(s, w, run[0]);
      YoungStep(s, w, run[0], op, t);
      StepKeeps(s, w, run[0]);
      YoungRun(s, Apply(s, w, run[0]), run[1..], op, t);
    }
  }

  /**
   * An operation whose handoff is over keeps the lock, and its record stays in the store, for as long as no more
   * than the time to live has passed since the record's stamp, whatever the sweeper and everybody else do.
   */
  lemma OwnerKeepsLockWithinTTL(s: Setup, w: World, run: seq<Step>, op: Id)
    requires Reachable(s, w) && ValidRun(s, w, run) && Owns(w.mem, op) && !AboutToRelease(w, op)
    requires op in w.recs && w.recs[op].updatedAt.Some?
    requires Final(s, w, run).now - w.recs[op].updatedAt.value <= s.cfg.sweeperTTL
    ensures Owns(Final(s, w, run).mem, op) && op in Final(s, w, run).store
  {
    hide Reachable, Inv, ValidRun, Final, FreesOld;
    ReachableBound(s, w);
    ReachableFreesOld(s, w);
    YoungRun(s, w, run, op, Final(s, w, run).now);
    ReachableAfter(s, w, run);
    OwnerIsDurable(s, Final(s, w, run), op);
    RecsRun(s, w, run, op);
  }

  lemma {:induction false} RecsRun(s: Setup, w: World, run: seq<Step>, op: Id)
    requires Inv(s, w) && ValidRun(s, w, run) && op in w.recs
    ensures op in Final(s, w, run).recs && Final(s, w, run).recs[op] == w.recs[op]
    decreases |run|
  {
    hide Inv, Apply, Enabled;
    if run != [] {
      RecsStep(s, w, run[0], op);
      StepKeeps(s, w, run[0]);
      RecsRun(s, Apply(s, w, run[0]), run[1..], op);
    }
  }

  // ----- exactly when the lock can be freed -----

  /** The handoff of `op` is about to release it, because a reply arrived while its record was saved. */
  ghost predicate AboutToRelease(w: World, op: Id) {
    exists id :: id in w.hand && w.hand[id].op == op && w.hand[id].phase.Releasing?
  }

  /** The time at which a record expires. */
  ghost function ExpiryOf(ttl: int, rec: Rec, now: Time): (t: Time)
    ensures now <= t && Expired(ttl, rec, t)
  {
    if rec.updatedAt.None? || rec.updatedAt.value + ttl + 1 <= now then now else rec.updatedAt.value + ttl + 1
  }

  lemma StoreNames(s: Setup, w: World)
    requires Reachable(s, w)
    ensures forall op :: op in w.store ==> w.store[op].op == op
  {
    SweepFactsFrom(s, w);
  }

  lemma TimePasses(s: Setup, w: World, t: Time)
    requires w.now <= t
    ensures Enabled(s, w, Tick(t)) && Apply(s, w, Tick(t)) == w.(now := t)
  {
  }

  /** With the sweeper idle: let the record expire, then sweep. */
  lemma SweptAfterExpiry(s: Setup, w: World, op: Id) returns (run: seq<Step>)
    requires Reachable(s, w) && Owns(w.mem, op) && op in w.store && RoomForAll(w.store, s.cfg.recordLimit)
    requires w.sweep.Idle?
    ensures ValidRun(s, w, run) && !Owns(Final(s, w, run).mem, op)
  {
    hide Reachable, ActiveQuery, RoomForAll, ValidRun, Final, Apply, Enabled, SweepAll;
    var t := ExpiryOf(s.cfg.sweeperTTL, w.store[op], w.now);
    TimePasses(s, w, t);
    OneStep(s, w, Tick(t));
    ReachableAfter(s, w, [Tick(t)]);
    var v := w.(now := t);
    StoreNames(s, v);
    var ops := QueryHasAnswer(v.store, s.cfg.recordLimit);
    var sweep := SweepIsARun(s, v, ops);
    SweepConverges(s, v, ops);
    RunsCompose(s, w, [Tick(t)], sweep);
    run := [Tick(t)] + sweep;
  }

  /** An operation whose record is in the store can lose the lock. */
  lemma StoredCanBeFreed(s: Setup, w: World, op: Id) returns (run: seq<Step>)
    requires Reachable(s, w) && Owns(w.mem, op) && op in w.store && RoomForAll(w.store, s.cfg.recordLimit)
    ensures ValidRun(s, w, run) && !Owns(Final(s, w, run).mem, op)
  {
    hide Reachable, RoomForAll, ValidRun, Final, Inv, Bound;
    ReachableBound(s, w);
    run := SweepFinishes(s, w);
    var v := Final(s, w, run);
    if Owns(v.mem, op) {
      ReachableAfter(s, w, run);
      var rest := SweptAfterExpiry(s, v, op);
      RunsCompose(s, w, run, rest);
      run := run + rest;
    }
  }

  lemma ReleasingCanBeFreed(s: Setup, w: World, op: Id) returns (run: seq<Step>)
    requires Reachable(s, w) && Owns(w.mem, op) && AboutToRelease(w, op)
    ensures ValidRun(s, w, run) && !Owns(Final(s, w, run).mem, op)
  {
    hide Reachable, Inv, Apply, Enabled;
    ReachableInv(s, w);
    var id :| id in w.hand && w.hand[id].op == op && w.hand[id].phase.Releasing?;
    ReleaseFreesOwner(s, w, id);
    OneStep(s, w, HandoffRelease(id));
    run := [HandoffRelease(id)];
  }

  lemma OtherwiseStuck(s: Setup, w: World, op: Id)
    requires Reachable(s, w) && Owns(w.mem, op) && op !in w.store && !AboutToRelease(w, op)
    ensures Stuck(w, op)
  {
    hide Reachable, Inv, IsProtected;
    ReachableBound(s, w);
    OwnerIsProtected(w, op);
  }

  /**
   * Exactly when an operation's lock can be freed: in a reachable state with room for all records, some
   * later run frees it if and only if its record is in the store or its handoff is about to release it.
   */
  lemma FreeableExactlyWhen(s: Setup, w: World, op: Id)
    requires Reachable(s, w) && Owns(w.mem, op) && RoomForAll(w.store, s.cfg.recordLimit)
    ensures (exists run :: ValidRun(s, w, run) && !Owns(Final(s, w, run).mem, op)) <==>
            op in w.store || AboutToRelease(w, op)
  {
    hide Reachable, RoomForAll, ValidRun, Final, AboutToRelease;
    if op in w.store {
      var run := StoredCanBeFreed(s, w, op);
    } else if AboutToRelease(w, op) {
      var run := ReleasingCanBeFreed(s, w, op);
    } else {
      OtherwiseStuck(s, w, op);
      forall run | ValidRun(s, w, run) ensures Owns(Final(s, w, run).mem, op) {
        StuckForever(s, w, run, op);
      }
    }
  }

  // ----- exactly when a sweep frees an expired lock -----

  /** The lock is on its way from a transaction to operation `op`. */
  ghost predicate TransferTo(w: World, op: Id) {
    w.mem.owner.TransferPending? && w.mem.holder.Some? && w.mem.holder.value in w.hand &&
    w.hand[w.mem.holder.value].op == op
  }

  lemma SavedTransfers(s: Setup, w: World, step: Step)
    requires Inv(s, w) && Enabled(s, w, step) && step.HandoffSaved?
    ensures LockDrops(w.mem, Apply(s, w, step).mem) || Apply(s, w, step).mem.owner.OwnedByOperation?
  {
    hide Inv, TerminalTransition, Deliver;
    var id := step.id;
    var m := Transferred(w.mem, id, w.hand[id].op);
    TerminalDrops(s.cfg, w.now, m, id, Completed, w.hand[id].response);
    if id in m.pending { DeliverDrops(s.cfg, w.now, m, id, m.pending[id]); }
  }

  /** A transfer to an existing operation is not started twice. */
  lemma TransferBefore(s: Setup, w: World, step: Step, op: Id)
    requires Inv(s, w) && Enabled(s, w, step) && op in w.used && TransferTo(Apply(s, w, step), op)
    ensures TransferTo(w, op)
  {
    hide Inv, HandoffApply, HandoffEnabled, SweeperApply, SweeperEnabled, ExecutorApply, ExecutorEnabled, EventApply,
        EventEnabled;
    var v := Apply(s, w, step);
    HandChanges(s, w, step, v.mem.holder.value);
    if step.HandoffSaved? {
      SavedTransfers(s, w, step);
    } else if OfHandoff(step) {
      DropsByHandoff(s.cfg, w, step);
    } else if OfSweeper(step) {
      DropsBySweeper(s.cfg, w, step);
    } else if OfExecutor(step) {
      DropsByExecutor(s, w, step);
    } else if step.Frame? {
      FrameTransfers(s, w, step);
    } else if step.ResultRetain? {
      RetainTransfers(s, w, step);
    } else {
      DropsByEvent(s, w, step);
    }
  }

  lemma FrameTransfers(s: Setup, w: World, step: Step)
    requires Enabled(s, w, step) && step.Frame?
    ensures LockDrops(w.mem, Apply(s, w, step).mem)
  {
    hide ReceiveFrame;
    FrameForm(s, w, step.f, step.degraded, step.id, step.text);
  }

  lemma RetainTransfers(s: Setup, w: World, step: Step)
    requires Enabled(s, w, step) && step.ResultRetain?
    ensures var v := Apply(s, w, step);
            && step.op !in w.used
            && (v == w || (v.mem.holder == Some(step.id) && step.id in v.hand && v.hand[step.id].op == step.op))
  {
  }

  lemma ProtectedIs(s: Setup, w: World, op: Id)
    ensures IsProtected(w, op) <==> Owns(w.mem, op) || TransferTo(w, op)
  {
  }

  /** Without a transfer under way, an operation that is out of reach stays so, however late a Save returns. */
  lemma {:induction false} ListedToTheEnd(s: Setup, w: World, run: seq<Step>, rec: Rec)
    requires Inv(s, w) && ValidRun(s, w, run) && rec.op in w.used && !TransferTo(w, rec.op)
    requires StillListed(s, w, rec) || !IsProtected(w, rec.op)
    ensures StillListed(s, Final(s, w, run), rec) || !IsProtected(Final(s, w, run), rec.op)
    decreases |run|
  {
    hide Inv, Enabled, Apply, StillListed, IsProtected, TransferTo;
    if !IsProtected(w, rec.op) {
      NeverProtectedAgain(s, w, run, rec.op);
    } else if run != [] {
      var v := Apply(s, w, run[0]);
      ListedStep(s, w, run[0], rec);
      UsedGrows(s, w, run[0]);
      StepKeeps(s, w, run[0]);
      if TransferTo(v, rec.op) { TransferBefore(s, w, run[0], rec.op); }
      ProtectedIs(s, v, rec.op);
      ListedToTheEnd(s, v, run[1..], rec);
    }
  }

  /** The running Save of a transfer can still succeed, whatever the sweeper did meanwhile. */
  lemma TransferCanSucceed(s: Setup, w: World, op: Id) returns (run: seq<Step>)
    requires Inv(s, w) && TransferTo(w, op)
    ensures ValidRun(s, w, run) && Owns(Final(s, w, run).mem, op) && Final(s, w, run).sweep == w.sweep
  {
    hide Inv, ValidRun, Final, Apply, Enabled;
    var id := w.mem.holder.value;
    TransferPhase(s, w, id);
    var v := w;
    run := [];
    NoSteps(s, w);
    if v.hand[id].phase.Stamping? {
      StampsOn(s, v, id);
      OneStep(s, v, HandoffStamp(id));
      StepKeeps(s, v, HandoffStamp(id));
      run := [HandoffStamp(id)];
      v := Apply(s, v, HandoffStamp(id));
    }
    if !v.hand[id].phase.written {
      WritesOn(s, v, id);
      OneStep(s, v, HandoffWrite(id));
      StepKeeps(s, v, HandoffWrite(id));
      RunsCompose(s, w, run, [HandoffWrite(id)]);
      run := run + [HandoffWrite(id)];
      v := Apply(s, v, HandoffWrite(id));
    }
    SavesOn(s, v, id);
    OneStep(s, v, HandoffSaved(id));
    RunsCompose(s, w, run, [HandoffSaved(id)]);
    run := run + [HandoffSaved(id)];
  }

  lemma NoSteps(s: Setup, w: World)
    ensures ValidRun(s, w, []) && Final(s, w, []) == w
  {
  }

  lemma TransferPhase(s: Setup, w: World, id: Id)
    requires Inv(s, w) && id in w.hand && w.mem.holder == Some(id)
    ensures w.hand[id].phase.Stamping? || w.hand[id].phase.Saving?
  {
    hide Inv, RecOfHand;
    HandFacts(s, w, id);
  }

  ghost predicate Saving(w: World, v: World, id: Id) {
    && id in w.hand && id in v.hand && v.hand[id].op == w.hand[id].op && v.hand[id].phase.Saving?
    && v.mem == w.mem && v.sweep == w.sweep
  }

  lemma StampsOn(s: Setup, w: World, id: Id)
    requires id in w.hand && w.hand[id].phase.Stamping?
    ensures Enabled(s, w, HandoffStamp(id)) && Saving(w, Apply(s, w, HandoffStamp(id)), id)
  {
  }

  lemma WritesOn(s: Setup, w: World, id: Id)
    requires id in w.hand && w.hand[id].phase.Saving? && !w.hand[id].phase.written
    ensures var v := Apply(s, w, HandoffWrite(id));
            Enabled(s, w, HandoffWrite(id)) && Saving(w, v, id) && v.hand[id].phase.written
  {
  }

  lemma SavesOn(s: Setup, w: World, id: Id)
    requires Inv(s, w) && id in w.hand && w.hand[id].phase.Saving? && w.hand[id].phase.written &&
               w.mem.holder == Some(id)
    ensures Enabled(s, w, HandoffSaved(id))
    ensures Owns(Apply(s, w, HandoffSaved(id)).mem, w.hand[id].op) && Apply(s, w, HandoffSaved(id)).sweep == w.sweep
  {
    hide Inv, RecOfHand, ResumeSaved;
    HandFacts(s, w, id);
    SavedOwns(s.cfg, w.now, w.mem, id, w.hand[id].op, w.hand[id].response);
  }

  lemma SavedOwns(cfg: Config, now: Time, m: Mem, id: Id, op: Id, response: Option<Bytes>)
    requires m.holder == Some(id) && op != id
    ensures Owns(ResumeSaved(cfg, now, m, id, op, response).0, op)
  {
    hide CacheSet, TTLForMethod;
  }

  /** While a transfer is under way, some run completes the sweep and still ends with the operation owning the lock. */
  lemma LateSaveTakesLock(s: Setup, w: World, op: Id) returns (run: seq<Step>)
    requires Reachable(s, w) && TransferTo(w, op)
    ensures ValidRun(s, w, run) && Final(s, w, run).sweep.Idle? && Owns(Final(s, w, run).mem, op)
  {
    hide Reachable, ValidRun, Final, Inv, Bound;
    ReachableBound(s, w);
    run := SweepFinishes(s, w);
    var v := Final(s, w, run);
    RunKeeps(s, w, run);
    var rest := TransferCanSucceed(s, v, op);
    RunsCompose(s, w, run, rest);
    run := run + rest;
  }

  lemma LoadedIsListed(s: Setup, w: World, rec: Rec)
    requires Inv(s, w) && w.sweep.Loaded? && rec in w.sweep.ops && Expired(s.cfg.sweeperTTL, rec, w.now)
    ensures StillListed(s, w, rec) && rec.op in w.used
  {
    hide Inv;
    var i :| 0 <= i < |w.sweep.ops| && w.sweep.ops[i] == rec;
    assert SweepOps(w.sweep)[i] == rec;
    ListedIds(s, w, i);
  }

  /**
   * Exactly when a sweep frees an expired lock: a sweep that was handed the expired record of an operation
   * leaves it without the lock in every run in which it completes, if and only if the lock was not just
   * on its way to that operation; a Save that returns late takes the lock behind the sweeper's back.
   */
  lemma ExpiredLockIsFreed(s: Setup, w: World, rec: Rec)
    requires Reachable(s, w) && w.sweep.Loaded? && rec in w.sweep.ops
    requires rec.updatedAt.None? || w.now - rec.updatedAt.value > s.cfg.sweeperTTL
    ensures !TransferTo(w, rec.op) <==>
            forall run :: ValidRun(s, w, run) && Final(s, w, run).sweep.Idle? ==> !Owns(Final(s, w, run).mem, rec.op)
  {
    hide Reachable, Inv, ValidRun, Final, TransferTo, IsProtected, StillListed;
    ReachableInv(s, w);
    LoadedIsListed(s, w, rec);
    if TransferTo(w, rec.op) {
      var run := LateSaveTakesLock(s, w, rec.op);
    } else {
      forall run | ValidRun(s, w, run) && Final(s, w, run).sweep.Idle? ensures !Owns(Final(s, w, run).mem, rec.op) {
        ListedToTheEnd(s, w, run, rec);
        IdleListsNothing(s, Final(s, w, run), rec);
        ProtectedIs(s, Final(s, w, run), rec.op);
      }
    }
  }

  lemma IdleListsNothing(s: Setup, w: World, rec: Rec)
    requires w.sweep.Idle?
    ensures !StillListed(s, w, rec)
  {
  }
}
