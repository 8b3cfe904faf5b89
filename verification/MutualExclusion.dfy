/** State-changing commands exclude each other, over all runs: what the state lock is for. */
module MutualExclusion {
  import opened Common
  import opened Transactions
  import opened Manager
  import opened ManagerInvariants
  import opened OperationStore
  import opened FrameHandler
  import opened AdmissionTheorems
  import opened World
  import opened WorldInvariants
  import opened WorldSteps
  import opened WorldEffects
  import opened RequestTheorems

  ghost predicate Changing(w: World, i: Id) {
    i in w.mem.live && w.mem.live[i].command in CHANGING
  }

  /** Transaction `i` gave its lock to its operation and only waits to deliver its buffered reply. */
  ghost predicate Closing(w: World, i: Id) {
    i in w.hand && !BeforeResume(w.hand[i].phase)
  }

  /** Every live state-changing transaction holds the lock, until it is closing. */
  ghost predicate Exclusive(w: World) {
    forall i: Id :: Changing(w, i) && !Closing(w, i) ==> w.mem.holder == Some(i)
  }

  // ----- who can lose the lock -----

  /** The holder changes only if it was `id`, and then only because `id` is finished. */
  ghost predicate HolderFrame(m: Mem, n: Mem, id: Id) {
    m.holder != Some(id) || id in n.live ==> n.holder == m.holder
  }

  lemma RetireHolder(cfg: Config, now: Time, m: Mem, id: Id, tx: Tx, final: TxState, payload: Option<Bytes>)
    ensures HolderFrame(m, Retire(cfg, now, m, id, tx, final, payload), id)
  {
  }

  lemma ConcludeHolder(cfg: Config, now: Time, m: Mem, id: Id, final: TxState, payload: Option<Bytes>)
    requires MemInv(cfg, now, m) && (final.Failed? || final.TimedOut?)
    requires final.TimedOut? && id in m.live ==> m.live[id].state.InFlight?
    ensures HolderFrame(m, Conclude(cfg, now, m, id, final, payload).0, id)
  {
    hide Conclude, Retire, LockAgrees, TablesAgree, CacheAgrees, OutboxAgrees, TimersAgree;
    if id in m.live {
      ConcludeForm(cfg, now, m, id, final, payload);
      RetireHolder(cfg, now, m, id, m.live[id], final, payload);
      if id in m.pending {
        RetireHolder(cfg, now, m, id, m.live[id].(state := InFlight), m.pending[id].state, m.pending[id].payload);
      }
    } else {
      ConcludeMissing(cfg, now, m, id, final, payload);
    }
  }

  lemma MarkInFlightHolder(cfg: Config, now: Time, m: Mem, id: Id)
    requires MemInv(cfg, now, m)
    ensures HolderFrame(m, MarkInFlight(cfg, now, m, id).0, id)
  {
    hide MarkInFlight, Retire, LockAgrees, TablesAgree, CacheAgrees, OutboxAgrees, TimersAgree;
    if id in m.live && m.live[id].state.PendingPublish? {
      MarkInFlightForm(cfg, now, m, id);
      if id in m.pending {
        RetireHolder(cfg, now, m, id, m.live[id].(state := InFlight), m.pending[id].state, m.pending[id].payload);
      }
    } else {
      MarkInFlightIdle(cfg, now, m, id);
    }
  }

  lemma CompleteHolder(cfg: Config, now: Time, m: Mem, id: Id, response: Option<Bytes>)
    ensures HolderFrame(m, Complete(cfg, now, m, id, response).0, id)
  {
    hide Retire;
    if id in m.live { RetireHolder(cfg, now, m, id, m.live[id], Completed, response); }
  }

  lemma DispatchTimeoutHolder(cfg: Config, now: Time, m: Mem, id: Id)
    requires MemInv(cfg, now, m)
    ensures HolderFrame(m, DispatchTimeoutFail(cfg, now, m, id), id)
  {
    hide Retire, LockAgrees, TablesAgree, CacheAgrees, OutboxAgrees, TimersAgree;
    if id in m.live && PreFlight(m.live[id].state) {
      DispatchTimeoutForm(cfg, now, m, id);
      RetireHolder(cfg, now, m, id, m.live[id], Failed, None);
      if id in m.pending {
        RetireHolder(cfg, now, m, id, m.live[id].(state := InFlight), m.pending[id].state, m.pending[id].payload);
      }
    }
  }

  lemma AdvanceHolder(m: Mem, id: Id, to: TxState)
    ensures HolderFrame(m, Advance(m, id, to).0, id) && HolderFrame(m, BeginHandoff(m, id).0, id)
  {
  }

  lemma FailedHolder(s: Setup, w: World, id: Id)
    requires Inv(s, w) && id in w.hand && w.hand[id].phase.Saving?
    ensures HolderFrame(w.mem, ResumeFailed(s.cfg, w.now, w.mem, id).0, id)
  {
    hide Inv, MemInv, ResumeFailed, Reclaim, Retire, TimersAgree;
    LiveFacts(s, w, id);
    HandFacts(s, w, id);
    var m := w.mem;
    if id in m.live {
      ResumeFailedForm(s.cfg, w.now, m, id);
      var tx := m.live[id].(handoff := false);
      RetireHolder(s.cfg, w.now, m, id, tx, TimedOut, TimeoutResponse(s.cfg, tx));
      ReclaimForm(m, id, tx);
      ReclaimForm(m, id, tx.(timer := true, timedOnce := true));
      if id in m.pending {
        RetireHolder(s.cfg, w.now, m, id, tx, m.pending[id].state, m.pending[id].payload);
      }
    } else {
      RetiredFacts(s, w, id);
      ResumeFailedOnRetired(s.cfg, w.now, m, id);
    }
  }

  /** A saved handoff moves the lock; if its transaction is still live it is closing. */
  lemma SavedHolder(s: Setup, w: World, id: Id)
    requires Inv(s, w) && id in w.hand && w.hand[id].phase.Saving?
    ensures var r := ResumeSaved(s.cfg, w.now, w.mem, id, w.hand[id].op, w.hand[id].response);
            && (w.mem.holder != Some(id) ==> r.0.holder == w.mem.holder)
            && (id in r.0.live ==> r.1.MustRelease?)
  {
    hide Inv, MemInv, TimersAgree, BuffersAgree;
    LiveFacts(s, w, id);
    HandFacts(s, w, id);
    if id !in w.mem.live {
      RetiredFacts(s, w, id);
    }
  }

  lemma FinishHolder(s: Setup, w: World, id: Id)
    requires Inv(s, w) && id in w.hand && w.hand[id].phase.Finishing?
    ensures HolderFrame(w.mem, FinishHandoff(s.cfg, w, id).mem, id) && id !in FinishHandoff(s.cfg, w, id).mem.live
  {
    hide Inv, MemInv, Retire, FinishHandoff;
    HandFacts(s, w, id);
    FinishTouches(s, w, id);
    if id in w.mem.live {
      RetireHolder(s.cfg, w.now, w.mem, id, w.mem.live[id], w.mem.pending[id].state, w.mem.pending[id].payload);
      RetiredIsGone(s.cfg, w.now, w.mem, id, w.mem.live[id], w.mem.pending[id].state, w.mem.pending[id].payload);
    } else {
      FinishMissing(s, w, id);
    }
  }

  lemma RetiredIsGone(cfg: Config, now: Time, m: Mem, id: Id, tx: Tx, final: TxState, payload: Option<Bytes>)
    ensures id !in Retire(cfg, now, m, id, tx, final, payload).live
  {
  }

  lemma FinishMissing(s: Setup, w: World, id: Id)
    requires id in w.hand && w.hand[id].phase.Finishing? && id !in w.mem.live
    ensures FinishHandoff(s.cfg, w, id).mem.holder == w.mem.holder && id !in FinishHandoff(s.cfg, w, id).mem.live
  {
  }

  // ----- the holder stays the holder -----

  /** What a step means for a transaction `i` that holds the lock, or for the handoff of `i` that ends. */
  ghost predicate Keeps(w: World, v: World, i: Id) {
    && (w.mem.holder == Some(i) && i in v.mem.live && i !in v.hand ==> v.mem.holder == Some(i))
    && (i in w.hand && i !in v.hand && i in v.mem.live ==> BeforeResume(w.hand[i].phase))
    && (i in w.hand && i in v.hand && !BeforeResume(w.hand[i].phase) ==> !BeforeResume(v.hand[i].phase))
  }

  lemma ExecKeepsHolder(s: Setup, w: World, step: Step, i: Id)
    requires Inv(s, w) && Enabled(s, w, step) && OfExecutor(step)
    ensures Keeps(w, Apply(s, w, step), i)
  {
    hide Inv, MemInv, Conclude, MarkInFlight, Advance, BuffersAgree, TimersAgree;
    var id := step.id;
    LiveFacts(s, w, id);
    if step.ExecPreparing? { AdvanceHolder(w.mem, id, PreparingDispatch); }
    else if step.ExecPublishing? { AdvanceHolder(w.mem, id, PendingPublish); }
    else if step.ExecInFlight? { MarkInFlightHolder(s.cfg, w.now, w.mem, id); }
    else if step.ExecFail? { ConcludeHolder(s.cfg, w.now, w.mem, id, Failed, Some(step.text)); }
  }

  lemma LiveHolder(s: Setup, w: World, i: Id)
    requires Inv(s, w) && i in w.exec && w.mem.holder == Some(i)
    ensures !w.mem.owner.OwnedByOperation? && i in w.mem.live
  {
    hide TablesAgree, CacheAgrees, OutboxAgrees, TimersAgree, BuffersAgree, OpIds, OpsOfSweep, OpsOfHands, Processes,
        Records, Safety, FramesAgree;
  }

  lemma ResumesKeepHolder(s: Setup, w: World, step: Step, i: Id)
    requires Inv(s, w) && OfHandoff(step) && HandoffEnabled(w, step) && Subject(step).Some?
    ensures Keeps(w, HandoffApply(s.cfg, w, step), i)
  {
    hide Inv, MemInv, ResumeSaved, ResumeFailed, FinishHandoff;
    var id := step.id;
    if step.HandoffSaved? { SavedHolder(s, w, id); }
    else if step.HandoffFailed? { FailedHolder(s, w, id); }
    else { FinishHolder(s, w, id); FinishForm(s, w, id); }
  }

  lemma PhasesKeepHolder(cfg: Config, w: World, step: Step, i: Id)
    requires OfHandoff(step) && HandoffEnabled(w, step) && Subject(step).None?
    requires w.mem.holder == Some(i) ==> !w.mem.owner.OwnedByOperation?
    ensures Keeps(w, HandoffApply(cfg, w, step), i)
  {
    hide BeginRelease, EndRelease, DeleteRecord;
    OutsideRelease(w.mem, w.hand[step.id].op);
  }

  lemma HandKeepsHolder(s: Setup, w: World, step: Step, i: Id)
    requires Inv(s, w) && Enabled(s, w, step) && OfHandoff(step) && i in w.exec
    ensures Keeps(w, Apply(s, w, step), i)
  {
    hide Inv, HandoffApply, HandoffEnabled, Keeps;
    if w.mem.holder == Some(i) { LiveHolder(s, w, i); }
    if Subject(step).Some? { ResumesKeepHolder(s, w, step, i); } else { PhasesKeepHolder(s.cfg, w, step, i); }
  }

  lemma FinishForm(s: Setup, w: World, id: Id)
    requires id in w.hand && w.hand[id].phase.Finishing?
    ensures FinishHandoff(s.cfg, w, id).hand == w.hand - {id}
  {
  }

  /** Releasing an operation's lock does nothing to a lock that no operation owns. */
  lemma OutsideRelease(m: Mem, op: Id)
    ensures EndRelease(m, op).holder == m.holder && EndRelease(m, op).live == m.live
    ensures !m.owner.OwnedByOperation? ==> BeginRelease(m, op).0 == m
    ensures BeginRelease(m, op).0.live == m.live
  {
  }

  lemma SweeperHolder(cfg: Config, w: World, step: Step)
    requires OfSweeper(step) && SweeperEnabled(cfg.recordLimit, w, step)
    ensures var v := SweeperApply(cfg, w, step);
            v.hand == w.hand && (!w.mem.owner.OwnedByOperation? ==> v.mem.holder == w.mem.holder)
  {
    hide ActiveQuery, CheckRecord, NextRecord, SetSweep, StartSweep, DeleteRecord, FreeLock, BeginRelease, EndRelease;
    if step.SweepFree? {
      OutsideRelease(w.mem, w.sweep.ops[0].op);
    } else if step.SweepFreedClear? {
      OutsideRelease(w.mem, w.sweep.ops[0].op);
    } else if step.SweepRemove? {
    } else if step.SweepFreedDelete? {
    } else {
      assert step.SweepRead? || step.SweepClock? || step.SweepCheck?;
    }
  }

  lemma SweeperKeepsHolder(s: Setup, w: World, step: Step, i: Id)
    requires Inv(s, w) && Enabled(s, w, step) && OfSweeper(step) && i in w.exec
    ensures Keeps(w, Apply(s, w, step), i)
  {
    hide Inv, SweeperApply, SweeperEnabled;
    if w.mem.holder == Some(i) { LiveHolder(s, w, i); }
    SweeperHolder(s.cfg, w, step);
  }

  lemma EventKeepsHolder(s: Setup, w: World, step: Step, i: Id)
    requires Inv(s, w) && Enabled(s, w, step) && !OfExecutor(step) && !OfHandoff(step) && !OfSweeper(step) &&
               !step.Frame?
    ensures Keeps(w, Apply(s, w, step), i)
  {
    hide Inv, MemInv, Conclude, Complete, DispatchTimeoutFail, BeginHandoff, Timeout, BuffersAgree, TimersAgree;
    if step.ResultComplete? { CompleteHolder(s.cfg, w.now, w.mem, step.id, step.response); }
    else if step.ResultFail? { LiveFacts(s, w, step.id);
        ConcludeHolder(s.cfg, w.now, w.mem, step.id, Failed, step.response); }
    else if step.ResultRetain? { RetainKeepsHolder(s, w, step.id, step.op, step.response, i); }
    else if step.TimerFires? { TimeoutHolder(s, w, step.id); }
    else if step.DispatchTimerFires? { LiveFacts(s, w, step.id); DispatchTimeoutHolder(s.cfg, w.now, w.mem, step.id); }
  }

  lemma TimeoutHolder(s: Setup, w: World, id: Id)
    requires Inv(s, w) && (id in w.mem.live ==> w.mem.live[id].timedOnce)
    ensures HolderFrame(w.mem, Timeout(s.cfg, w.now, w.mem, id).0, id)
  {
    hide Inv, MemInv, Conclude, TimersAgree;
    LiveFacts(s, w, id);
    if id in w.mem.live {
      ConcludeHolder(s.cfg, w.now, w.mem, id, TimedOut, TimeoutResponse(s.cfg, w.mem.live[id]));
    }
  }

  /** A new handoff starts for a transaction that is in none. */
  lemma RetainKeepsHolder(s: Setup, w: World, id: Id, op: Id, response: Option<Bytes>, i: Id)
    requires Inv(s, w)
    ensures Keeps(w, Retain(w, id, op, response), i)
  {
    hide Inv, MemInv, TimersAgree, BuffersAgree;
    if id in w.mem.live { LiveHasAgent(s, w, id); }
  }

  lemma StepKeepsHolder(s: Setup, w: World, step: Step, i: Id)
    requires Inv(s, w) && Enabled(s, w, step) && !step.Frame? && i in w.exec
    ensures Keeps(w, Apply(s, w, step), i)
  {
    hide Inv, Apply, Enabled, Keeps;
    if OfExecutor(step) { ExecKeepsHolder(s, w, step, i); }
    else if OfHandoff(step) { HandKeepsHolder(s, w, step, i); }
    else if OfSweeper(step) { SweeperKeepsHolder(s, w, step, i); }
    else { EventKeepsHolder(s, w, step, i); }
  }

  // ----- exclusion -----

  lemma OldStepExclusive(s: Setup, w: World, step: Step, i: Id)
    requires Inv(s, w) && Exclusive(w) && Enabled(s, w, step) && !step.Frame?
    ensures var v := Apply(s, w, step); Changing(v, i) && !Closing(v, i) ==> v.mem.holder == Some(i)
  {
    hide Inv, Apply, Enabled;
    var v := Apply(s, w, step);
    StepKeeps(s, w, step);
    if Changing(v, i) && !Closing(v, i) {
      if i in v.hand {
        HandFacts(s, v, i);
      } else {
        WasLive(s, w, step, i);
        StepKeepsHolder(s, w, step, i);
        if i in w.hand { HandFacts(s, w, i); }
      }
    }
  }

  /** Only a frame opens a transaction. */
  lemma WasLive(s: Setup, w: World, step: Step, i: Id)
    requires Inv(s, w) && Enabled(s, w, step) && !step.Frame? && i in Apply(s, w, step).mem.live
    ensures i in w.mem.live && i in w.exec && Apply(s, w, step).mem.live[i].command == w.mem.live[i].command
  {
    hide Inv, Apply, Enabled;
    if Subject(step).Some? {
      SubjectTouches(s, w, step);
      assert i != Subject(step).value ==> SameEntry(w.mem, Apply(s, w, step).mem, i);
    } else {
      QuietStep(s, w, step);
    }
    ExecGrows(s, w, i);
  }

  lemma NewIsHolder(cfg: Config, now: Time, m: Mem, id: Id, f: Inbound, respond: bool, changing: bool)
    requires f.Request?
    requires CreateTransaction(cfg, now, m, id, f.session, f.id, respond, f.command, f.timeout, changing).1.Ok?
    ensures var n := CreateTransaction(cfg, now, m, id, f.session, f.id, respond, f.command, f.timeout, changing).0;
            n.live == m.live[id := n.live[id]] && n.live[id].command == f.command
            && (if changing then !m.locked && n.holder == Some(id) else n.holder == m.holder)
  {
  }

  ghost predicate Opened(w: World, v: World, id: Id, f: Inbound) {
    && f.Request? && id in v.mem.live && v.mem.live == w.mem.live[id := v.mem.live[id]] &&
         v.mem.live[id].command == f.command
    && (if f.command in CHANGING then !w.mem.locked && v.mem.holder == Some(id)
         else v.mem.holder == w.mem.holder)
  }

  ghost predicate Unmoved(w: World, v: World) {
    v.mem.live == w.mem.live && v.mem.holder == w.mem.holder
  }

  lemma AdmitOpens(s: Setup, w: World, f: Inbound, respond: bool, changing: bool, id: Id, text: Bytes)
    requires f.Request? && changing == (f.command in CHANGING)
    ensures var v := AdmitFrame(s, w, f, respond, changing, id, text);
            v.hand == w.hand && (Unmoved(w, v) || Opened(w, v, id, f))
  {
    hide CreateTransaction;
    if CreateTransaction(s.cfg, w.now, w.mem, id, f.session, f.id, respond, f.command, f.timeout, changing).1.Ok? {
      NewIsHolder(s.cfg, w.now, w.mem, id, f, respond, changing);
    }
  }

  lemma FrameOpens(s: Setup, w: World, f: Inbound, degraded: bool, id: Id, text: Bytes)
    ensures var v := ReceiveFrame(s, w, f, degraded, id, text);
            v.hand == w.hand && (Unmoved(w, v) || Opened(w, v, id, f))
  {
    hide Decide, AdmitFrame, Opened, Executable;
    DecidesExactly(s.limits, degraded, f);
    var d := Decide(s.limits, degraded, f);
    if d.Admit? { AdmitOpens(s, w, f, d.respond, d.stateChanging, id, text); }
  }

  lemma FrameExclusive(s: Setup, w: World, f: Inbound, degraded: bool, id: Id, text: Bytes)
    requires Inv(s, w) && Exclusive(w) && id !in w.used
    ensures Exclusive(ReceiveFrame(s, w, f, degraded, id, text))
  {
    hide Inv, ReceiveFrame;
    NewIdFacts(s, w, id);
    FrameOpens(s, w, f, degraded, id, text);
    var v := ReceiveFrame(s, w, f, degraded, id, text);
    forall i: Id | Changing(v, i) && !Closing(v, i) ensures v.mem.holder == Some(i) {
      if Unmoved(w, v) {
        assert Changing(w, i) && !Closing(w, i);
      } else if i != id {
        assert Changing(w, i) && !Closing(w, i);
      }
    }
  }

  lemma StepExclusive(s: Setup, w: World, step: Step)
    requires Inv(s, w) && Exclusive(w) && Enabled(s, w, step)
    ensures Exclusive(Apply(s, w, step))
  {
    if step.Frame? {
      hide Inv, ReceiveFrame, Exclusive;
      FrameExclusive(s, w, step.f, step.degraded, step.id, step.text);
    } else {
      hide Inv, Apply, Enabled, Changing, Closing;
      forall i: Id | Changing(Apply(s, w, step), i) && !Closing(Apply(s, w, step), i)
        ensures Apply(s, w, step).mem.holder == Some(i)
      {
        OldStepExclusive(s, w, step, i);
      }
    }
  }

  lemma {:induction false} RunExclusive(s: Setup, w: World, run: seq<Step>)
    requires Inv(s, w) && Exclusive(w) && ValidRun(s, w, run)
    ensures Exclusive(Final(s, w, run))
    decreases |run|
  {
    hide Inv, Apply, Enabled, Exclusive;
    if run != [] {
      StepExclusive(s, w, run[0]);
      StepKeeps(s, w, run[0]);
      RunExclusive(s, Apply(s, w, run[0]), run[1..]);
    }
  }

  lemma ReachableExclusive(s: Setup, w: World)
    requires Reachable(s, w)
    ensures Exclusive(w)
  {
    hide Inv, Exclusive, ValidRun, Final, Started;
    var before, ops, w0, run :| Leads(s, before, ops, w0, run, w);
    StartKeeps(s, before, ops, w0);
    StartExclusive(s, before, ops, w0);
    RunExclusive(s, w0, run);
  }

  lemma StartExclusive(s: Setup, before: map<Id, Rec>, ops: seq<Rec>, w: World)
    requires Started(s, before, ops, w)
    ensures Exclusive(w)
  {
    hide ActiveQuery;
    assert w.mem.live == map[];
  }

  /**
   * Mutual exclusion: in every reachable state, of two live state-changing transactions one is past its
   * turn: it gave up the lock and its outcome is already decided. While an operation holds the lock,
   * every live state-changing transaction is.
   */
  lemma AtMostOneChanges(s: Setup, w: World, i: Id, j: Id)
    requires Reachable(s, w) && Changing(w, i)
    ensures i != j && Changing(w, j) ==> Closing(w, i) || Closing(w, j)
    ensures w.mem.owner.OwnedByOperation? || w.mem.owner.LockNone? ==> Closing(w, i)
    ensures Closing(w, i) ==> Decided(w, i, w.hand[i].phase.reply)
  {
    hide Inv, Reachable;
    ReachableInv(s, w);
    ReachableExclusive(s, w);
    LockOf(s, w);
    if Closing(w, i) { HandFacts(s, w, i); }
  }

  lemma LockOf(s: Setup, w: World)
    requires Inv(s, w)
    ensures w.mem.owner.OwnedByOperation? && w.mem.holder.Some? ==> w.mem.holder.value !in w.mem.live
    ensures w.mem.owner.LockNone? ==> w.mem.holder.None?
  {
    hide TablesAgree, CacheAgrees, OutboxAgrees, TimersAgree, BuffersAgree, Identities, Processes, Records, Safety,
        FramesAgree;
  }
}
