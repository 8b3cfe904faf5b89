/** Persistent operations: crash safety of the handoff, and what the sweeper may and must do. */
module OperationTheorems {
  import opened Common
  import opened Transactions
  import opened Manager
  import opened ManagerInvariants
  import opened OperationStore
  import opened World
  import opened WorldInvariants
  import opened WorldSteps
  import opened WorldEffects

  ghost predicate Owns(m: Mem, op: Id) {
    m.owner.OwnedByOperation? && m.holder == Some(op)
  }

  /** An operation that owns the lock has its active record in the store, or the record is past its TTL. */
  lemma OwnerIsDurable(s: Setup, w: World, op: Id)
    requires Reachable(s, w) && Owns(w.mem, op)
    ensures op in w.recs && w.recs[op].op == op && w.recs[op].active
    ensures s.cfg.bootID == "" || w.recs[op].boot == "" || w.recs[op].boot == s.cfg.bootID
    ensures w.recs[op].updatedAt.Some? && w.now - w.recs[op].updatedAt.value <= s.cfg.sweeperTTL ==>
              op in w.store && w.store[op] == w.recs[op]
  {
    ReachableInv(s, w);
    hide MemInv, Identities, Processes, RecsOfHands, RecsOfSweep, FramesAgree, SweepSafe, ReleasesSafe;
  }

  ghost function ActiveIds(store: map<Id, Rec>): set<Id> {
    set op | op in store && store[op].active
  }

  /** The store answers a query with every active record: no limit, or room for all. */
  ghost predicate RoomForAll(store: map<Id, Rec>, limit: int) {
    limit <= 0 || |ActiveIds(store)| <= limit
  }

  lemma {:induction false} DistinctIds(ops: seq<Rec>, ids: set<Id>)
    requires forall i, j :: 0 <= i < j < |ops| ==> ops[i].op != ops[j].op
    requires forall i :: 0 <= i < |ops| ==> ops[i].op in ids
    ensures |ops| <= |ids|
    decreases |ops|
  {
    if ops != [] {
      var last := ops[|ops| - 1].op;
      DistinctIds(ops[..|ops| - 1], ids - {last});
    }
  }

  lemma QueryReturnsAll(store: map<Id, Rec>, limit: int, ops: seq<Rec>, op: Id)
    requires ActiveQuery(store, limit, ops) && RoomForAll(store, limit)
    requires op in store && store[op].active && store[op].op == op
    ensures store[op] in ops
  {
    if store[op] !in ops {
      assert LeftOut(store, ops, op);
      DistinctIds(ops, ActiveIds(store) - {op});
    }
  }

  /**
   * Crash safety: if a process dies while an operation owns the lock, a Start no later than the time to live
   * after the record's stamp holds the lock again, for a record of this boot that is as young and as new.
   */
  lemma CrashSafety(s: Setup, w: World, op: Id, ops: seq<Rec>, v: World)
    requires Reachable(s, w) && Owns(w.mem, op)
    requires Started(s, w.store, ops, v) && w.now <= v.now
    requires ActiveQuery(w.store, s.cfg.recordLimit, ops) && RoomForAll(w.store, s.cfg.recordLimit)
    requires op in w.recs && w.recs[op].updatedAt.Some? && v.now - w.recs[op].updatedAt.value <= s.cfg.sweeperTTL
    ensures v.mem.locked && v.mem.owner.OwnedByOperation? && v.mem.holder.Some?
    ensures var holder := v.mem.holder.value;
            && holder in v.store && v.store[holder] in ops
            && (s.cfg.bootID == "" || v.store[holder].boot == "" || v.store[holder].boot == s.cfg.bootID)
            && v.store[holder].updatedAt.Some? && v.now - v.store[holder].updatedAt.value <= s.cfg.sweeperTTL
            && v.store[holder].updatedAt.value >= w.recs[op].updatedAt.value
  {
    OwnerIsDurable(s, w, op);
    QueryReturnsAll(w.store, s.cfg.recordLimit, ops, op);
    var first := FirstRecoverable(s.cfg.bootID, s.cfg.sweeperTTL, v.now, ops);
    var k :| 0 <= k < |ops| && ops[k] == w.recs[op];
    assert Compatible(s.cfg.bootID, ops[k]) && !Expired(s.cfg.sweeperTTL, ops[k], v.now);
    FirstRecoverableIsNewest(ops, s.cfg.bootID, s.cfg.sweeperTTL, v.now);
    RecoveredIsKept(s, w.store, ops, v, first.value);
  }

  /** Conversely Start takes the lock only for a record of this boot that has not expired. */
  lemma StartTakesOnlyRecoverable(s: Setup, before: map<Id, Rec>, ops: seq<Rec>, v: World)
    requires Started(s, before, ops, v)
    ensures v.mem.locked <==>
            exists i :: 0 <= i < |ops|
              && (s.cfg.bootID == "" || ops[i].boot == "" || ops[i].boot == s.cfg.bootID)
              && ops[i].updatedAt.Some? && v.now - ops[i].updatedAt.value <= s.cfg.sweeperTTL
  {
    var first := FirstRecoverable(s.cfg.bootID, s.cfg.sweeperTTL, v.now, ops);
    if first.Some? {
      var k :| 0 <= k < |ops| && ops[k] == first.value;
    }
  }

  /** Start removes records of other boots only, as far as both boots are known. */
  lemma StartDeletesOtherBoots(s: Setup, before: map<Id, Rec>, ops: seq<Rec>, v: World, op: Id)
    requires Started(s, before, ops, v) && op in before && op !in v.store
    ensures s.cfg.bootID != "" && before[op].boot != "" && before[op].boot != s.cfg.bootID
  {
    var i :| 0 <= i < |ops| && ops[i].op == op && s.cfg.bootID != "" && ops[i].boot != "" &&
        ops[i].boot != s.cfg.bootID;
  }

  /** A record is stamped with the second in which its Save begins and with the boot that runs. */
  lemma StampedNow(s: Setup, w: World, id: Id)
    requires Enabled(s, w, HandoffStamp(id))
    ensures var v := Apply(s, w, HandoffStamp(id));
            && w.hand[id].op in v.recs
            && v.recs[w.hand[id].op].boot == s.cfg.bootID
            && v.recs[w.hand[id].op].updatedAt.Some?
            && v.recs[w.hand[id].op].updatedAt.value <= w.now < v.recs[w.hand[id].op].updatedAt.value + 1_000_000_000
  {
  }

  // ----- what is not protected stays unprotected -----

  /** Between `m` and `n` the lock stays, is dropped, or goes back to its transaction. */
  ghost predicate LockDrops(m: Mem, n: Mem) {
    (n.holder == m.holder && n.owner == m.owner) || n.owner.LockNone? || n.owner.OwnedByRPC?
  }

  lemma TerminalDrops(cfg: Config, now: Time, m: Mem, id: Id, final: TxState, payload: Option<Bytes>)
    ensures LockDrops(m, TerminalTransition(cfg, now, m, id, final, payload).0)
  {
  }

  lemma DeliverDrops(cfg: Config, now: Time, m: Mem, id: Id, reply: Reply)
    ensures LockDrops(m, Deliver(cfg, now, m, id, reply).0)
  {
    hide TerminalTransition;
    TerminalDrops(cfg, now, m.(pending := m.pending - {id}), id, reply.state, reply.payload);
  }

  lemma ConcludeDrops(cfg: Config, now: Time, m: Mem, id: Id, final: TxState, payload: Option<Bytes>)
    ensures LockDrops(m, Conclude(cfg, now, m, id, final, payload).0)
  {
    hide TerminalTransition, Deliver;
    TerminalDrops(cfg, now, m, id, final, payload);
    TerminalDrops(cfg, now, m.(pending := m.pending - {id}), id, final, payload);
    if id in m.live && id in m.pending {
      DeliverDrops(cfg, now, Update(m, id, m.live[id].(state := InFlight)), id, m.pending[id]);
    }
  }

  lemma MarkInFlightDrops(cfg: Config, now: Time, m: Mem, id: Id)
    ensures LockDrops(m, MarkInFlight(cfg, now, m, id).0)
  {
    hide Deliver;
    var n := Advance(m, id, InFlight).0;
    if id in n.pending {
      DeliverDrops(cfg, now, n, id, n.pending[id]);
    }
  }

  lemma CompleteDrops(cfg: Config, now: Time, m: Mem, id: Id, response: Option<Bytes>)
    ensures LockDrops(m, Complete(cfg, now, m, id, response).0)
  {
    hide TerminalTransition;
    TerminalDrops(cfg, now, m, id, Completed, response);
  }

  lemma DispatchTimeoutDrops(cfg: Config, now: Time, m: Mem, id: Id)
    ensures LockDrops(m, DispatchTimeoutFail(cfg, now, m, id))
  {
    hide TerminalTransition, Deliver;
    TerminalDrops(cfg, now, m, id, Failed, None);
    TerminalDrops(cfg, now, m.(pending := m.pending - {id}), id, Failed, None);
    if id in m.live && id in m.pending {
      DeliverDrops(cfg, now, Update(m, id, m.live[id].(state := InFlight)), id, m.pending[id]);
    }
  }

  lemma ResumeFailedDrops(cfg: Config, now: Time, m: Mem, id: Id)
    ensures LockDrops(m, ResumeFailed(cfg, now, m, id).0) && ResumeFailed(cfg, now, m, id).1.Returned?
  {
    hide TerminalTransition, Deliver, Reclaim;
    var o := Reclaim(m, id);
    ReclaimDrops(m, id);
    if id in o.pending {
      DeliverDrops(cfg, now, o, id, o.pending[id]);
    }
    TerminalDrops(cfg, now, o, id, TimedOut, if id in o.live then TimeoutResponse(cfg, o.live[id]) else None);
  }

  lemma ReclaimDrops(m: Mem, id: Id)
    ensures LockDrops(m, Reclaim(m, id))
  {
  }

  lemma ReleaseDrops(m: Mem, op: Id)
    ensures LockDrops(m, BeginRelease(m, op).0) && LockDrops(m, EndRelease(m, op))
  {
  }

  /** Each running handoff keeps its operation. */
  ghost predicate HandsShrink(w: World, v: World) {
    forall id :: id in v.hand ==> id in w.hand && v.hand[id].op == w.hand[id].op
  }

  lemma DropsProtect(w: World, v: World, op: Id)
    requires LockDrops(w.mem, v.mem) && HandsShrink(w, v)
    ensures Protected(v.mem.owner, v.mem.holder, v.hand, op) ==> Protected(w.mem.owner, w.mem.holder, w.hand, op)
  {
  }

  ghost predicate IsProtected(w: World, op: Id) {
    Protected(w.mem.owner, w.mem.holder, w.hand, op)
  }

  lemma DropsByExecutor(s: Setup, w: World, step: Step)
    requires Enabled(s, w, step) && OfExecutor(step)
    ensures LockDrops(w.mem, Apply(s, w, step).mem) && Apply(s, w, step).hand == w.hand
  {
    hide MarkInFlight, Conclude, ValidateTransition;
    if step.ExecInFlight? {
      MarkInFlightDrops(s.cfg, w.now, w.mem, step.id);
    } else if step.ExecFail? {
      ConcludeDrops(s.cfg, w.now, w.mem, step.id, Failed, Some(step.text));
    }
  }

  lemma DropsByEvent(s: Setup, w: World, step: Step)
    requires Enabled(s, w, step) && !OfExecutor(step) && !OfHandoff(step) && !OfSweeper(step) &&
               !step.ResultRetain? && !step.Frame?
    ensures LockDrops(w.mem, Apply(s, w, step).mem) && Apply(s, w, step).hand == w.hand
  {
    hide Complete, Conclude, DispatchTimeoutFail;
    if step.ResultComplete? {
      CompleteDrops(s.cfg, w.now, w.mem, step.id, step.response);
    } else if step.ResultFail? {
      ConcludeDrops(s.cfg, w.now, w.mem, step.id, Failed, step.response);
    } else if step.TimerFires? {
      if step.id in w.mem.live {
        ConcludeDrops(s.cfg, w.now, w.mem, step.id, TimedOut, TimeoutResponse(s.cfg, w.mem.live[step.id]));
      }
    } else if step.DispatchTimerFires? {
      DispatchTimeoutDrops(s.cfg, w.now, w.mem, step.id);
    }
  }

  lemma DropsBySweeper(cfg: Config, w: World, step: Step)
    requires OfSweeper(step) && SweeperEnabled(cfg.recordLimit, w, step)
    ensures LockDrops(w.mem, SweeperApply(cfg, w, step).mem) && SweeperApply(cfg, w, step).hand == w.hand
  {
    hide ActiveQuery, CheckRecord, NextRecord, SetSweep, StartSweep, DeleteRecord, FreeLock, EndRelease, BeginRelease;
    if step.SweepFree? {
      ReleaseDrops(w.mem, w.sweep.ops[0].op);
    } else if step.SweepFreedClear? {
      ReleaseDrops(w.mem, w.sweep.ops[0].op);
    } else if step.SweepRemove? {
    } else if step.SweepFreedDelete? {
    } else {
      assert step.SweepRead? || step.SweepClock? || step.SweepCheck?;
    }
  }

  lemma DropsByHandoff(cfg: Config, w: World, step: Step)
    requires OfHandoff(step) && HandoffEnabled(w, step) && !step.HandoffSaved?
    ensures LockDrops(w.mem, HandoffApply(cfg, w, step).mem) && HandsShrink(w, HandoffApply(cfg, w, step))
  {
    hide ResumeFailed, DeleteRecord, BeginRelease, EndRelease, Deliver;
    var id := step.id;
    ReleaseDrops(w.mem, w.hand[id].op);
    if step.HandoffFailed? {
      ResumeFailedDrops(cfg, w.now, w.mem, id);
    } else if step.HandoffFinish? {
      DeliverDrops(cfg, w.now, w.mem, id, w.hand[id].phase.reply);
    } else if step.HandoffStamp? {
    } else if step.HandoffWrite? {
    } else if step.HandoffRelease? {
    } else {
      assert step.HandoffDelete? || step.HandoffClear?;
    }
  }

  /** Handing the lock over makes no other operation protected. */
  lemma SavedProtects(s: Setup, w: World, id: Id, v: World, op: Id)
    requires Inv(s, w) && id in w.hand && w.hand[id].phase.Saving? && w.hand[id].phase.written
    requires v == Resume(w, id, ResumeSaved(s.cfg, w.now, w.mem, id, w.hand[id].op, w.hand[id].response)) &&
               IsProtected(v, op)
    ensures IsProtected(w, op)
    ensures Owns(v.mem, op) ==> Owns(w.mem, op) || (id in w.mem.live && w.hand[id].op == op)
  {
    hide Inv, MemInv, TerminalTransition, Deliver;
    HandFacts(s, w, id);
    var m := Transferred(w.mem, id, w.hand[id].op);
    TerminalDrops(s.cfg, w.now, m, id, Completed, w.hand[id].response);
    if id in m.pending {
      DeliverDrops(s.cfg, w.now, m, id, m.pending[id]);
    }
    if id !in w.mem.live {
      RetiredFacts(s, w, id);
    }
  }

  /** A step protects no operation that was not protected before, except one it has just created. */
  lemma ProtectedStep(s: Setup, w: World, step: Step, op: Id)
    requires Inv(s, w) && Enabled(s, w, step) && op in w.used && IsProtected(Apply(s, w, step), op)
    ensures IsProtected(w, op)
  {
    hide Inv, ExecutorApply, HandoffApply, SweeperApply, EventApply, ExecutorEnabled, HandoffEnabled, SweeperEnabled,
        EventEnabled, Protected;
    if OfExecutor(step) {
      DropsByExecutor(s, w, step);
      DropsProtect(w, Apply(s, w, step), op);
    } else if OfSweeper(step) {
      DropsBySweeper(s.cfg, w, step);
      DropsProtect(w, Apply(s, w, step), op);
    } else if step.HandoffSaved? {
      SavedStepProtects(s, w, step, op);
    } else if OfHandoff(step) {
      DropsByHandoff(s.cfg, w, step);
      DropsProtect(w, Apply(s, w, step), op);
    } else if step.Frame? {
      FrameStepProtects(s, w, step, op);
    } else if step.ResultRetain? {
      RetainProtects(s, w, step, op);
    } else {
      DropsByEvent(s, w, step);
      DropsProtect(w, Apply(s, w, step), op);
    }
  }

  lemma SavedStepProtects(s: Setup, w: World, step: Step, op: Id)
    requires Inv(s, w) && Enabled(s, w, step) && step.HandoffSaved? && IsProtected(Apply(s, w, step), op)
    ensures IsProtected(w, op)
    ensures Owns(Apply(s, w, step).mem, op) ==> Owns(w.mem, op) || (step.id in w.mem.live && w.hand[step.id].op == op)
  {
    hide Inv, ResumeSaved, Resume, Protected;
    SavedProtects(s, w, step.id, Apply(s, w, step), op);
  }

  lemma FrameStepProtects(s: Setup, w: World, step: Step, op: Id)
    requires Enabled(s, w, step) && step.Frame? && IsProtected(Apply(s, w, step), op)
    ensures IsProtected(w, op)
  {
    hide ReceiveFrame;
    FrameForm(s, w, step.f, step.degraded, step.id, step.text);
  }

  lemma RetainProtects(s: Setup, w: World, step: Step, op: Id)
    requires Inv(s, w) && Enabled(s, w, step) && step.ResultRetain? && op in w.used &&
               IsProtected(Apply(s, w, step), op)
    ensures IsProtected(w, op)
  {
    hide Inv;
    assert op != step.op;
  }
}
