/** The orphan sweeper: what it never deletes, and what it always frees. */
module SweeperTheorems {
  import opened Common
  import opened Manager
  import opened ManagerInvariants
  import opened OperationStore
  import opened World
  import opened WorldInvariants
  import opened WorldSteps
  import opened WorldEffects
  import opened OperationTheorems

  // ----- identifiers are never forgotten -----

  lemma UsedByHandoff(cfg: Config, w: World, step: Step)
    requires OfHandoff(step) && HandoffEnabled(w, step)
    ensures HandoffApply(cfg, w, step).used == w.used
  {
    hide ResumeSaved, ResumeFailed, Deliver, SetPhase, DeleteRecord, BeginRelease, EndRelease;
  }

  lemma UsedBySweeper(cfg: Config, w: World, step: Step)
    requires OfSweeper(step) && SweeperEnabled(cfg.recordLimit, w, step)
    ensures SweeperApply(cfg, w, step).used == w.used
  {
    hide ActiveQuery, CheckRecord, NextRecord, SetSweep, StartSweep, DeleteRecord, FreeLock, EndRelease;
  }

  lemma UsedByOthers(s: Setup, w: World, step: Step)
    requires Enabled(s, w, step) && !OfHandoff(step) && !OfSweeper(step)
    ensures w.used <= Apply(s, w, step).used
  {
    hide Conclude, MarkInFlight, Advance, Complete, DispatchTimeoutFail, Timeout, ReceiveFrame, Retain;
  }

  lemma UsedGrows(s: Setup, w: World, step: Step)
    requires Enabled(s, w, step)
    ensures w.used <= Apply(s, w, step).used
  {
    hide HandoffApply, HandoffEnabled, SweeperApply, SweeperEnabled, ExecutorApply, ExecutorEnabled, EventApply,
        EventEnabled;
    if OfHandoff(step) {
      UsedByHandoff(s.cfg, w, step);
    } else if OfSweeper(step) {
      UsedBySweeper(s.cfg, w, step);
    } else {
      UsedByOthers(s, w, step);
    }
  }

  // ----- never delete what is needed -----

  lemma {:induction false} NeverProtectedAgain(s: Setup, w: World, run: seq<Step>, op: Id)
    requires Inv(s, w) && ValidRun(s, w, run) && op in w.used && !IsProtected(w, op)
    ensures !IsProtected(Final(s, w, run), op)
    decreases |run|
  {
    hide Inv, Enabled, Apply, IsProtected;
    if run != [] {
      var v := Apply(s, w, run[0]);
      StepKeeps(s, w, run[0]);
      UsedGrows(s, w, run[0]);
      if IsProtected(v, op) {
        ProtectedStep(s, w, run[0], op);
      }
      NeverProtectedAgain(s, v, run[1..], op);
    }
  }

  ghost predicate Deletes(step: Step) {
    step.SweepRemove? || step.SweepFreedDelete?
  }

  lemma DeletedIsUnprotected(s: Setup, w: World, step: Step)
    requires Inv(s, w) && Enabled(s, w, step) && Deletes(step)
    ensures w.sweep.Running? && w.sweep.ops != [] && w.sweep.ops[0].op in w.used
    ensures !IsProtected(w, w.sweep.ops[0].op) || Expired(s.cfg.sweeperTTL, w.sweep.ops[0], w.now)
  {
    hide Inv, Protected;
    SweepFacts(s, w);
  }

  /**
   * Check and delete are separate steps, yet the sweeper never deletes a record within its time to live whose
   * operation holds the lock at that moment or at any later moment of the run.
   */
  lemma SweeperSafety(s: Setup, w: World, step: Step, run: seq<Step>)
    requires Reachable(s, w) && Enabled(s, w, step) && Deletes(step) && ValidRun(s, Apply(s, w, step), run)
    ensures w.sweep.Running? && w.sweep.ops != []
    ensures var rec := w.sweep.ops[0];
            rec.updatedAt.Some? && w.now - rec.updatedAt.value <= s.cfg.sweeperTTL ==>
              !Owns(w.mem, rec.op) && !Owns(Final(s, Apply(s, w, step), run).mem, rec.op)
  {
    hide Inv, Apply, Enabled;
    ReachableInv(s, w);
    DeletedIsUnprotected(s, w, step);
    var op := w.sweep.ops[0].op;
    if !Expired(s.cfg.sweeperTTL, w.sweep.ops[0], w.now) {
      var v := Apply(s, w, step);
      StepKeeps(s, w, step);
      UsedGrows(s, w, step);
      if IsProtected(v, op) { ProtectedStep(s, w, step, op); }
      NeverProtectedAgain(s, v, run, op);
    }
  }

  // ----- prompt saves: the owner's record is in the store -----

  /** A Save that succeeds returns before its record expires. */
  ghost predicate Prompt(s: Setup, w: World, step: Step) {
    step.HandoffSaved? && step.id in w.hand && w.hand[step.id].phase.Saving? ==>
      !Expired(s.cfg.sweeperTTL, w.hand[step.id].phase.rec, w.now)
  }

  ghost predicate PromptRun(s: Setup, w: World, run: seq<Step>)
    requires ValidRun(s, w, run)
    decreases |run|
  {
    run == [] || (Prompt(s, w, run[0]) && PromptRun(s, Apply(s, w, run[0]), run[1..]))
  }

  ghost predicate AboutToRemove(w: World, op: Id) {
    w.sweep.Running? && w.sweep.ops != [] && w.sweep.phase.Removing? && w.sweep.ops[0].op == op
  }

  /** The owning operation's record is in the store and no deletion of it is pending. */
  ghost predicate Kept(w: World) {
    forall op :: Owns(w.mem, op) ==> op in w.store && !AboutToRemove(w, op)
  }

  lemma KeptDrops(w: World, v: World)
    requires Kept(w) && LockDrops(w.mem, v.mem)
    requires forall op :: Owns(w.mem, op) && op in w.store ==> op in v.store
    requires forall op :: Owns(w.mem, op) && AboutToRemove(v, op) ==> AboutToRemove(w, op)
    ensures Kept(v)
  {
    forall op | Owns(v.mem, op)
      ensures op in v.store && !AboutToRemove(v, op)
    {
      assert Owns(w.mem, op);
    }
  }

  lemma KeptByOthers(s: Setup, w: World, step: Step)
    requires Enabled(s, w, step) && !OfHandoff(step) && !OfSweeper(step)
    ensures Apply(s, w, step).store == w.store && Apply(s, w, step).sweep == w.sweep
  {
    hide Conclude, MarkInFlight, Advance, Complete, DispatchTimeoutFail, Timeout, ReceiveFrame, Retain;
  }

  lemma LockOfOthers(s: Setup, w: World, step: Step, op: Id)
    requires Enabled(s, w, step) && !OfHandoff(step) && !OfSweeper(step) && Owns(Apply(s, w, step).mem, op)
    ensures Owns(w.mem, op)
  {
    if OfExecutor(step) {
      hide Apply, Enabled;
      DropsByExecutor(s, w, step);
    } else if step.Frame? {
      hide ReceiveFrame;
      FrameForm(s, w, step.f, step.degraded, step.id, step.text);
    } else if step.ResultRetain? {
    } else {
      hide Apply, Enabled;
      DropsByEvent(s, w, step);
    }
  }

  lemma StoreOfHandoff(s: Setup, w: World, step: Step, op: Id)
    requires Inv(s, w) && OfHandoff(step) && HandoffEnabled(w, step) && op in w.store && IsProtected(w, op)
    ensures op in HandoffApply(s.cfg, w, step).store
  {
    hide Inv, ResumeSaved, ResumeFailed, Deliver, SetPhase, BeginRelease, EndRelease, Protected;
    if step.HandoffDelete? {
      ReleasedFacts(s, w, step.id);
    }
  }

  lemma SweepOfHandoff(cfg: Config, w: World, step: Step)
    requires OfHandoff(step) && HandoffEnabled(w, step)
    ensures HandoffApply(cfg, w, step).sweep == w.sweep
  {
    hide ResumeSaved, ResumeFailed, Deliver, SetPhase, DeleteRecord, BeginRelease, EndRelease;
  }

  lemma KeptSaved(s: Setup, w: World, step: Step)
    requires Inv(s, w) && Kept(w) && step.HandoffSaved? && HandoffEnabled(w, step) && Prompt(s, w, step)
    ensures Kept(HandoffApply(s.cfg, w, step))
  {
    hide Inv, ResumeSaved, Resume, Protected, Expired;
    var v := HandoffApply(s.cfg, w, step);
    var id := step.id;
    SweepOfHandoff(s.cfg, w, step);
    forall op | Owns(v.mem, op)
      ensures op in v.store && !AboutToRemove(v, op)
    {
      OwnerIsProtected(v, op);
      SavedProtects(s, w, id, v, op);
      if !Owns(w.mem, op) {
        PromptFacts(s, w, id);
      }
      StoreOfHandoff(s, w, step, op);
    }
  }

  lemma OwnerIsProtected(w: World, op: Id)
    requires Owns(w.mem, op)
    ensures IsProtected(w, op)
  {
  }

  /** The operation about to take the lock with an unexpired record has it in the store, safe from the sweeper. */
  lemma PromptFacts(s: Setup, w: World, id: Id)
    requires Inv(s, w) && id in w.hand && w.hand[id].phase.Saving? && w.hand[id].phase.written && id in w.mem.live
    requires !Expired(s.cfg.sweeperTTL, w.hand[id].phase.rec, w.now)
    ensures w.hand[id].op in w.store && !AboutToRemove(w, w.hand[id].op)
  {
    hide MemInv, Identities, RecsOfSweep, ReleasesSafe, FramesAgree, PcsAgree;
    HandFacts(s, w, id);
    var op := w.hand[id].op;
    assert IsProtected(w, op);
    if AboutToRemove(w, op) {
      SweepFacts(s, w);
    }
  }

  lemma KeptHandoff(s: Setup, w: World, step: Step)
    requires Inv(s, w) && Kept(w) && OfHandoff(step) && HandoffEnabled(w, step) && Prompt(s, w, step)
    ensures Kept(HandoffApply(s.cfg, w, step))
  {
    hide Inv, HandoffApply, HandoffEnabled, Prompt;
    if step.HandoffSaved? {
      KeptSaved(s, w, step);
    } else {
      DropsByHandoff(s.cfg, w, step);
      SweepOfHandoff(s.cfg, w, step);
      forall op | Owns(w.mem, op) && op in w.store
        ensures op in HandoffApply(s.cfg, w, step).store
      {
        StoreOfHandoff(s, w, step, op);
      }
      KeptDrops(w, HandoffApply(s.cfg, w, step));
    }
  }

  lemma KeptSweeper(s: Setup, w: World, step: Step)
    requires Inv(s, w) && Kept(w) && OfSweeper(step) && SweeperEnabled(s.cfg.recordLimit, w, step)
    ensures Kept(SweeperApply(s.cfg, w, step))
  {
    hide Inv, SweeperApply, SweeperEnabled;
    DropsBySweeper(s.cfg, w, step);
    var v := SweeperApply(s.cfg, w, step);
    forall op | Owns(w.mem, op)
      ensures op in w.store ==> op in v.store
      ensures AboutToRemove(v, op) ==> AboutToRemove(w, op)
    {
      OwnerIsProtected(w, op);
      SweeperSpares(s, w, step, op);
    }
    KeptDrops(w, v);
  }

  lemma SweeperSpares(s: Setup, w: World, step: Step, op: Id)
    requires Inv(s, w) && Kept(w) && OfSweeper(step) && SweeperEnabled(s.cfg.recordLimit, w, step)
    requires Owns(w.mem, op) && IsProtected(w, op)
    ensures op in w.store ==> op in SweeperApply(s.cfg, w, step).store
    ensures AboutToRemove(SweeperApply(s.cfg, w, step), op) ==> AboutToRemove(w, op)
  {
    hide Inv, ActiveQuery, Protected, Expired;
    if w.sweep.Running? && w.sweep.ops != [] {
      SweepFacts(s, w);
    }
    if step.SweepRemove? {
    } else if step.SweepFreedDelete? {
    } else if step.SweepCheck? {
    } else if step.SweepFree? {
    } else {
      assert step.SweepRead? || step.SweepClock? || step.SweepFreedClear?;
    }
  }

  lemma KeptStep(s: Setup, w: World, step: Step)
    requires Inv(s, w) && Kept(w) && Enabled(s, w, step) && Prompt(s, w, step)
    ensures Kept(Apply(s, w, step))
  {
    hide Inv, HandoffApply, HandoffEnabled, SweeperApply, SweeperEnabled, ExecutorApply, ExecutorEnabled, EventApply,
        EventEnabled, Prompt;
    if OfHandoff(step) {
      KeptHandoff(s, w, step);
    } else if OfSweeper(step) {
      KeptSweeper(s, w, step);
    } else {
      KeptByOthers(s, w, step);
      forall op | Owns(Apply(s, w, step).mem, op)
        ensures op in w.store && !AboutToRemove(w, op)
      {
        LockOfOthers(s, w, step, op);
      }
    }
  }

  /** With prompt saves, whatever else fails, the record of the owning operation stays in the store. */
  lemma {:induction false} OwnerIsKept(s: Setup, w: World, run: seq<Step>)
    requires Inv(s, w) && Kept(w) && ValidRun(s, w, run) && PromptRun(s, w, run)
    ensures Kept(Final(s, w, run))
    decreases |run|
  {
    hide Inv, Enabled, Apply, Kept, Prompt;
    if run != [] {
      KeptStep(s, w, run[0]);
      StepKeeps(s, w, run[0]);
      OwnerIsKept(s, Apply(s, w, run[0]), run[1..]);
    }
  }

  lemma StartIsKept(s: Setup, before: map<Id, Rec>, ops: seq<Rec>, w: World)
    requires Started(s, before, ops, w)
    ensures Kept(w)
  {
    hide ActiveQuery;
    var first := FirstRecoverable(s.cfg.bootID, s.cfg.sweeperTTL, w.now, ops);
    if first.Some? {
      RecoveredIsKept(s, before, ops, w, first.value);
    }
  }

  /** Some start and some interleaving in which every successful Save was prompt lead to `w`. */
  ghost predicate PromptlyReachable(s: Setup, w: World) {
    exists before, ops, w0, run :: Leads(s, before, ops, w0, run, w) && PromptRun(s, w0, run)
  }

  /** With prompt saves every sweep whose limit leaves room is handed the owning operation's record. */
  lemma SweepSeesOwner(s: Setup, w: World, op: Id, ops: seq<Rec>)
    requires PromptlyReachable(s, w) && Owns(w.mem, op)
    requires ActiveQuery(w.store, s.cfg.recordLimit, ops) && RoomForAll(w.store, s.cfg.recordLimit)
    ensures op in w.recs && w.recs[op] in ops && w.recs[op].op == op
  {
    hide Inv, Apply, Enabled, ActiveQuery, RoomForAll, Kept, Prompt;
    var before, ops0, w0, run :| Leads(s, before, ops0, w0, run, w) && PromptRun(s, w0, run);
    StartKeeps(s, before, ops0, w0);
    StartIsKept(s, before, ops0, w0);
    OwnerIsKept(s, w0, run);
    RunKeeps(s, w0, run);
    OwnerRecord(s, w, op);
    QueryReturnsAll(w.store, s.cfg.recordLimit, ops, op);
  }

  lemma OwnerRecord(s: Setup, w: World, op: Id)
    requires Inv(s, w) && Kept(w) && Owns(w.mem, op)
    ensures op in w.recs && op in w.store && w.store[op] == w.recs[op] && w.recs[op].op == op && w.recs[op].active
  {
    hide MemInv, Identities, Processes, RecsOfHands, RecsOfSweep, FramesAgree, SweepSafe, ReleasesSafe;
  }

  // ----- an expired lock is freed -----

  ghost predicate StillListed(s: Setup, w: World, rec: Rec) {
    && rec in SweepOps(w.sweep)
    && Expired(s.cfg.sweeperTTL, rec, if w.sweep.Running? then w.sweep.at else w.now)
    && (w.sweep.Running? && w.sweep.ops != [] && w.sweep.ops[0] == rec ==>
         w.sweep.phase.Checking? || w.sweep.phase.Freeing?)
  }

  /** The operation does not own the lock, and its running handoff, if any, is past the TTL. */
  ghost predicate OutOfReach(s: Setup, w: World, op: Id) {
    && op in w.used
    && !Owns(w.mem, op)
    && (IsProtected(w, op) ==> op in w.recs && Expired(s.cfg.sweeperTTL, w.recs[op], w.now))
  }

  lemma RecsOfHandoffs(s: Setup, w: World, step: Step, op: Id)
    requires Inv(s, w) && OfHandoff(step) && HandoffEnabled(w, step) && op in w.recs
    ensures op in HandoffApply(s.cfg, w, step).recs && HandoffApply(s.cfg, w, step).recs[op] == w.recs[op]
    ensures HandoffApply(s.cfg, w, step).now == w.now
  {
    hide Inv, ResumeSaved, ResumeFailed, Deliver, SetPhase, DeleteRecord, BeginRelease, EndRelease;
    HandFacts(s, w, step.id);
  }

  lemma RecsOfSweeper(cfg: Config, w: World, step: Step)
    requires OfSweeper(step) && SweeperEnabled(cfg.recordLimit, w, step)
    ensures SweeperApply(cfg, w, step).recs == w.recs && SweeperApply(cfg, w, step).now == w.now
  {
    hide ActiveQuery, CheckRecord, NextRecord, SetSweep, StartSweep, DeleteRecord, FreeLock, EndRelease;
  }

  lemma RecsOfOthers(s: Setup, w: World, step: Step)
    requires Enabled(s, w, step) && !OfHandoff(step) && !OfSweeper(step)
    ensures Apply(s, w, step).recs == w.recs && w.now <= Apply(s, w, step).now
  {
    hide Conclude, MarkInFlight, Advance, Complete, DispatchTimeoutFail, Timeout, ReceiveFrame, Retain;
  }

  lemma RecsStep(s: Setup, w: World, step: Step, op: Id)
    requires Inv(s, w) && Enabled(s, w, step) && op in w.recs
    ensures op in Apply(s, w, step).recs && Apply(s, w, step).recs[op] == w.recs[op] && w.now <= Apply(s, w, step).now
  {
    hide Inv, HandoffApply, HandoffEnabled, SweeperApply, SweeperEnabled, ExecutorApply, ExecutorEnabled, EventApply,
        EventEnabled;
    if OfHandoff(step) {
      RecsOfHandoffs(s, w, step, op);
    } else if OfSweeper(step) {
      RecsOfSweeper(s.cfg, w, step);
    } else {
      RecsOfOthers(s, w, step);
    }
  }

  /** A prompt step gives the lock to no operation that is out of reach. */
  lemma NotTaken(s: Setup, w: World, step: Step, op: Id)
    requires Inv(s, w) && Enabled(s, w, step) && Prompt(s, w, step) && OutOfReach(s, w, op)
    ensures !Owns(Apply(s, w, step).mem, op)
  {
    hide Inv, HandoffApply, HandoffEnabled, SweeperApply, SweeperEnabled, ExecutorApply, ExecutorEnabled, EventApply,
        EventEnabled, Expired, IsProtected;
    if Owns(Apply(s, w, step).mem, op) {
      if step.HandoffSaved? {
        NotTakenBySave(s, w, step, op);
      } else if OfHandoff(step) {
        DropsByHandoff(s.cfg, w, step);
      } else if OfSweeper(step) {
        DropsBySweeper(s.cfg, w, step);
      } else {
        LockOfOthers(s, w, step, op);
      }
    }
  }

  lemma NotTakenBySave(s: Setup, w: World, step: Step, op: Id)
    requires Inv(s, w) && Enabled(s, w, step) && step.HandoffSaved? && Prompt(s, w, step) && OutOfReach(s, w, op)
    ensures !Owns(Apply(s, w, step).mem, op)
  {
    hide Inv, HandoffApply, Expired;
    var v := Apply(s, w, step);
    HandFacts(s, w, step.id);
    if Owns(v.mem, op) {
      OwnerIsProtected(v, op);
      SavedStepProtects(s, w, step, op);
    }
  }

  lemma OutOfReachStep(s: Setup, w: World, step: Step, op: Id)
    requires Inv(s, w) && Enabled(s, w, step) && Prompt(s, w, step) && OutOfReach(s, w, op)
    ensures OutOfReach(s, Apply(s, w, step), op)
  {
    hide Inv, Apply, Enabled, Prompt, IsProtected;
    var v := Apply(s, w, step);
    UsedGrows(s, w, step);
    NotTaken(s, w, step, op);
    if IsProtected(v, op) {
      ProtectedStep(s, w, step, op);
      RecsStep(s, w, step, op);
    }
  }

  lemma ListedSweeper(s: Setup, w: World, step: Step, rec: Rec)
    requires Inv(s, w) && OfSweeper(step) && SweeperEnabled(s.cfg.recordLimit, w, step) && StillListed(s, w, rec)
    ensures StillListed(s, SweeperApply(s.cfg, w, step), rec) || OutOfReach(s, SweeperApply(s.cfg, w, step), rec.op)
  {
    hide Inv, ActiveQuery;
    if w.sweep.Running? && w.sweep.ops != [] {
      SweepFacts(s, w);
      ReleasingFacts(s, w, rec.op);
      assert rec != w.sweep.ops[0] ==> rec in w.sweep.ops[1..];
    }
    if step.SweepCheck? {
      CheckListed(s, w, rec);
    } else if step.SweepFree? {
      FreeListed(s, w, rec);
    } else if step.SweepRemove? {
    } else if step.SweepFreedDelete? {
    } else if step.SweepFreedClear? {
    } else {
      assert step.SweepRead? || step.SweepClock?;
    }
  }

  lemma ReleasingFacts(s: Setup, w: World, op: Id)
    requires Inv(s, w)
    ensures w.mem.releasing == Some(op) ==> !IsProtected(w, op)
  {
    hide MemInv, Identities, Processes, Records, FramesAgree, Durable, SweepSafe;
  }

  lemma CheckListed(s: Setup, w: World, rec: Rec)
    requires Inv(s, w) && Sweeping(w, Checking) && StillListed(s, w, rec)
    ensures StillListed(s, CheckRecord(s.cfg, w), rec) || OutOfReach(s, CheckRecord(s.cfg, w), rec.op)
  {
    hide Inv;
    SweepFacts(s, w);
    if rec != w.sweep.ops[0] {
      assert rec in w.sweep.ops[1..];
    }
  }

  lemma FreeOther(s: Setup, w: World, rec: Rec)
    requires Sweeping(w, Freeing) && StillListed(s, w, rec) && rec != w.sweep.ops[0]
    ensures StillListed(s, FreeLock(w), rec)
  {
    hide BeginRelease, Expired;
    assert rec in w.sweep.ops[1..];
  }

  lemma FreeHead(s: Setup, w: World, rec: Rec)
    requires Inv(s, w) && Sweeping(w, Freeing) && StillListed(s, w, rec) && rec == w.sweep.ops[0]
    ensures OutOfReach(s, FreeLock(w), rec.op)
  {
    hide Inv, SweepSafe, Compatible;
    SweepFacts(s, w);
    ReleasingFacts(s, w, rec.op);
  }

  lemma FreeListed(s: Setup, w: World, rec: Rec)
    requires Inv(s, w) && Sweeping(w, Freeing) && StillListed(s, w, rec)
    ensures StillListed(s, FreeLock(w), rec) || OutOfReach(s, FreeLock(w), rec.op)
  {
    hide Inv, StillListed, OutOfReach, FreeLock;
    if rec == w.sweep.ops[0] { FreeHead(s, w, rec); } else { FreeOther(s, w, rec); }
  }

  lemma ListedStep(s: Setup, w: World, step: Step, rec: Rec)
    requires Inv(s, w) && Enabled(s, w, step) && StillListed(s, w, rec)
    ensures StillListed(s, Apply(s, w, step), rec) || OutOfReach(s, Apply(s, w, step), rec.op)
  {
    hide Inv, HandoffApply, HandoffEnabled, SweeperApply, SweeperEnabled, ExecutorApply, ExecutorEnabled, EventApply,
        EventEnabled, OutOfReach;
    if OfHandoff(step) {
      SweepOfHandoff(s.cfg, w, step);
      HandoffRest(s.cfg, w, step);
    } else if OfSweeper(step) {
      ListedSweeper(s, w, step, rec);
    } else {
      KeptByOthers(s, w, step);
      RecsOfOthers(s, w, step);
    }
  }

  lemma {:induction false} ListedRun(s: Setup, w: World, run: seq<Step>, rec: Rec)
    requires Inv(s, w) && ValidRun(s, w, run) && PromptRun(s, w, run)
    requires StillListed(s, w, rec) || OutOfReach(s, w, rec.op)
    ensures StillListed(s, Final(s, w, run), rec) || OutOfReach(s, Final(s, w, run), rec.op)
    decreases |run|
  {
    hide Inv, Enabled, Apply, Prompt, StillListed, OutOfReach;
    if run != [] {
      if StillListed(s, w, rec) {
        ListedStep(s, w, run[0], rec);
      } else {
        OutOfReachStep(s, w, run[0], rec.op);
      }
      StepKeeps(s, w, run[0]);
      ListedRun(s, Apply(s, w, run[0]), run[1..], rec);
    }
  }

  /**
   * With prompt saves a sweep that was handed the record of an operation after its TTL leaves that operation
   * without the lock when it is done, whatever else happened meanwhile.
   */
  lemma PromptLockIsFreed(s: Setup, w: World, run: seq<Step>, rec: Rec)
    requires Reachable(s, w) && w.sweep.Loaded? && rec in w.sweep.ops
    requires rec.updatedAt.None? || w.now - rec.updatedAt.value > s.cfg.sweeperTTL
    requires ValidRun(s, w, run) && PromptRun(s, w, run)
    requires Final(s, w, run).sweep.Idle?
    ensures !Owns(Final(s, w, run).mem, rec.op)
  {
    hide Inv, Apply, Enabled, Prompt;
    ReachableInv(s, w);
    ListedRun(s, w, run, rec);
  }
}
