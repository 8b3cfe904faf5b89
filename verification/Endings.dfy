/** What the end of a transaction leaves behind, whichever call ends it: its answer, its cache entry, its record. */
module Endings {
  import opened Common
  import opened Transactions
  import opened Manager
  import opened ManagerInvariants
  import opened World
  import opened WorldInvariants
  import opened WorldSteps
  import opened WorldEffects

  /** How long a completed response is kept: the method's own time if positive, else the default, else five minutes. */
  function Lifetime(cfg: Config, command: string): nat {
    if command in cfg.methodTTLs && cfg.methodTTLs[command] > 0 then cfg.methodTTLs[command]
    else if cfg.defaultTTL > 0 then cfg.defaultTTL
    else 300_000_000_000
  }

  /** The text of a time-out: an error for the request's own id, for those who want an answer. */
  function TimeoutText(cfg: Config, tx: Tx): Option<Bytes> {
    if tx.respond then Some(cfg.timeoutText(tx.cloudId)) else None
  }

  /** What the cloud is sent when transaction `tx` has ended. */
  function AnswerTo(id: Id, tx: Tx): seq<Push> {
    if tx.respond && tx.payload.Some? && tx.payload.value != []
    then [Push(FromTransaction(id), tx.session, tx.payload.value)]
    else []
  }

  /** Every time-out, decided or final, carries the time-out text of its transaction. */
  ghost predicate TimeoutsAgree(cfg: Config, live: map<Id, Tx>, retired: map<Id, Tx>, pending: map<Id, Reply>) {
    && (forall id :: id in pending && id in live && pending[id].state.TimedOut? ==>
          pending[id].payload == TimeoutText(cfg, live[id]))
    && (forall id :: id in retired && retired[id].state.TimedOut? ==>
         retired[id].payload == TimeoutText(cfg, retired[id]))
  }

  ghost predicate TimesOut(cfg: Config, m: Mem) {
    TimeoutsAgree(cfg, m.live, m.retired, m.pending)
  }

  /**
   * From `m` to `n` at most transaction `id` ends; if it does it is answered, whatever its final state, and
   * a completed response is cached for its lifetime; otherwise nothing is pushed.
   */
  ghost predicate Settles(cfg: Config, now: Time, m: Mem, n: Mem, id: Id) {
    && (id !in m.live || id in n.live ==> n.pushed == m.pushed)
    && (id in m.live && id !in n.live ==>
          && id in n.retired
          && n.pushed == m.pushed + AnswerTo(id, n.retired[id])
          && (m.live[id].respond && n.retired[id].state.Completed? && n.retired[id].payload.Some? ==>
                && m.live[id].key in n.cache
                && n.cache[m.live[id].key] ==
                   CacheEntry(n.retired[id].payload.value, now + Lifetime(cfg, m.live[id].command))))
    && (TimesOut(cfg, m) ==> TimesOut(cfg, n))
  }

  lemma RetireSettles(cfg: Config, now: Time, m: Mem, id: Id, tx: Tx, final: TxState, payload: Option<Bytes>)
    requires id in m.live && SameIdentity(m.live[id], tx)
    requires TimesOut(cfg, m) && final.TimedOut? ==> payload == TimeoutText(cfg, tx)
    ensures Settles(cfg, now, m, Retire(cfg, now, m, id, tx, final, payload), id)
  {
  }

  lemma UpdateSettles(cfg: Config, now: Time, m: Mem, id: Id, tx: Tx, owner: Owner)
    requires id in m.live && SameIdentity(m.live[id], tx)
    ensures Settles(cfg, now, m, Update(m, id, tx).(owner := owner), id)
  {
  }

  lemma BufferSettles(cfg: Config, now: Time, m: Mem, id: Id, reply: Reply)
    requires id in m.live && (reply.state.TimedOut? ==> reply.payload == TimeoutText(cfg, m.live[id]))
    ensures Settles(cfg, now, m, m.(pending := m.pending[id := reply]), id)
  {
  }

  lemma NothingSettles(cfg: Config, now: Time, m: Mem, id: Id)
    ensures Settles(cfg, now, m, m, id)
  {
  }

  /** Settling does not depend on who holds the lock. */
  lemma SettlesAcross(cfg: Config, now: Time, m: Mem, m': Mem, n: Mem, id: Id)
    requires m' == m.(holder := m'.holder, owner := m'.owner) && Settles(cfg, now, m', n, id)
    ensures Settles(cfg, now, m, n, id)
  {
  }

  /** Delivering the buffered reply of `id`. */
  lemma DeliverSettles(cfg: Config, now: Time, m: Mem, id: Id, tx: Tx)
    requires id in m.live && id in m.pending && SameIdentity(m.live[id], tx)
    ensures Settles(cfg, now, m, Retire(cfg, now, m, id, tx, m.pending[id].state, m.pending[id].payload), id)
  {
    hide Retire, Settles;
    RetireSettles(cfg, now, m, id, tx, m.pending[id].state, m.pending[id].payload);
  }

  lemma ConcludeSettles(cfg: Config, now: Time, m: Mem, id: Id, final: TxState, payload: Option<Bytes>)
    requires MemInv(cfg, now, m) && (final.Failed? || final.TimedOut?)
    requires final.TimedOut? && id in m.live ==> m.live[id].state.InFlight? && payload == TimeoutText(cfg, m.live[id])
    ensures Settles(cfg, now, m, Conclude(cfg, now, m, id, final, payload).0, id)
  {
    hide Settles, Conclude, Retire, TimeoutsAgree;
    hide LockAgrees, TablesAgree, CacheAgrees, OutboxAgrees, TimersAgree;
    NothingSettles(cfg, now, m, id);
    if id in m.live {
      ConcludeForm(cfg, now, m, id, final, payload);
      BufferSettles(cfg, now, m, id, Reply(payload, final));
      RetireSettles(cfg, now, m, id, m.live[id], final, payload);
      if id in m.pending { DeliverSettles(cfg, now, m, id, m.live[id].(state := InFlight)); }
    } else {
      ConcludeMissing(cfg, now, m, id, final, payload);
    }
  }

  lemma MarkInFlightSettles(cfg: Config, now: Time, m: Mem, id: Id)
    requires MemInv(cfg, now, m)
    ensures Settles(cfg, now, m, MarkInFlight(cfg, now, m, id).0, id)
  {
    hide Settles, MarkInFlight, Retire, TimeoutsAgree;
    hide LockAgrees, TablesAgree, CacheAgrees, OutboxAgrees, TimersAgree;
    if id in m.live && m.live[id].state.PendingPublish? {
      MarkInFlightForm(cfg, now, m, id);
      var tx := m.live[id].(state := InFlight);
      if id in m.pending {
        DeliverSettles(cfg, now, m, id, tx);
      } else {
        UpdateSettles(cfg, now, m, id, tx.(deadline := Some(now + tx.timeout), timer := true, timedOnce := true),
            m.owner);
      }
    } else {
      MarkInFlightIdle(cfg, now, m, id);
      NothingSettles(cfg, now, m, id);
    }
  }

  lemma CompleteSettles(cfg: Config, now: Time, m: Mem, id: Id, response: Option<Bytes>)
    ensures Settles(cfg, now, m, Complete(cfg, now, m, id, response).0, id)
  {
    hide Settles, Retire, TimeoutsAgree;
    NothingSettles(cfg, now, m, id);
    if id in m.live {
      BufferSettles(cfg, now, m, id, Reply(response, Completed));
      RetireSettles(cfg, now, m, id, m.live[id], Completed, response);
    }
  }

  lemma DispatchTimeoutSettles(cfg: Config, now: Time, m: Mem, id: Id)
    requires MemInv(cfg, now, m)
    ensures Settles(cfg, now, m, DispatchTimeoutFail(cfg, now, m, id), id)
  {
    hide Settles, Retire, TimeoutsAgree, LockAgrees, TablesAgree, CacheAgrees, OutboxAgrees, TimersAgree;
    NothingSettles(cfg, now, m, id);
    if id in m.live && PreFlight(m.live[id].state) {
      DispatchTimeoutForm(cfg, now, m, id);
      RetireSettles(cfg, now, m, id, m.live[id], Failed, None);
      if id in m.pending { DeliverSettles(cfg, now, m, id, m.live[id].(state := InFlight)); }
    }
  }

  lemma AdvanceSettles(cfg: Config, now: Time, m: Mem, id: Id, to: TxState)
    ensures Settles(cfg, now, m, Advance(m, id, to).0, id)
  {
    hide Settles;
    NothingSettles(cfg, now, m, id);
    if id in m.live { UpdateSettles(cfg, now, m, id, m.live[id].(state := to), m.owner); }
  }

  lemma BeginSettles(cfg: Config, now: Time, m: Mem, id: Id)
    ensures Settles(cfg, now, m, BeginHandoff(m, id).0, id)
  {
    hide Settles;
    NothingSettles(cfg, now, m, id);
    if id in m.live { UpdateSettles(cfg, now, m, id, m.live[id].(handoff := true, timer := false), TransferPending); }
  }

  lemma FailedSettles(s: Setup, w: World, id: Id)
    requires Inv(s, w) && id in w.hand && w.hand[id].phase.Saving?
    ensures Settles(s.cfg, w.now, w.mem, ResumeFailed(s.cfg, w.now, w.mem, id).0, id)
  {
    hide Inv, MemInv, ResumeFailed, Reclaim, Retire, TimersAgree, Settles, TimeoutsAgree;
    LiveFacts(s, w, id);
    HandFacts(s, w, id);
    var m := w.mem;
    if id in m.live {
      ResumeFailedForm(s.cfg, w.now, m, id);
      var tx := m.live[id].(handoff := false);
      var tx' := tx.(timer := true, timedOnce := true);
      RetireSettles(s.cfg, w.now, m, id, tx, TimedOut, TimeoutResponse(s.cfg, tx));
      ReclaimForm(m, id, tx);
      ReclaimForm(m, id, tx');
      UpdateSettles(s.cfg, w.now, m, id, tx, Reclaim(m, id).owner);
      UpdateSettles(s.cfg, w.now, m, id, tx', Reclaim(m, id).owner);
      if id in m.pending { DeliverSettles(s.cfg, w.now, m, id, tx); }
    } else {
      RetiredFacts(s, w, id);
      ResumeFailedOnRetired(s.cfg, w.now, m, id);
      NothingSettles(s.cfg, w.now, m, id);
    }
  }

  lemma SavedSettles(s: Setup, w: World, id: Id)
    requires Inv(s, w) && id in w.hand && w.hand[id].phase.Saving?
    ensures Settles(s.cfg, w.now, w.mem, ResumeSaved(s.cfg, w.now, w.mem, id, w.hand[id].op, w.hand[id].response).0, id)
  {
    hide Inv, MemInv, Retire, TimersAgree, BuffersAgree, Settles, TimeoutsAgree;
    LiveFacts(s, w, id);
    HandFacts(s, w, id);
    var m := w.mem.(holder := Some(w.hand[id].op), owner := OwnedByOperation);
    NothingSettles(s.cfg, w.now, w.mem, id);
    if id in w.mem.live {
      var n := Retire(s.cfg, w.now, m, id, m.live[id], Completed, w.hand[id].response);
      NothingSettles(s.cfg, w.now, m, id);
      SettlesAcross(s.cfg, w.now, w.mem, m, m, id);
      RetireSettles(s.cfg, w.now, m, id, m.live[id], Completed, w.hand[id].response);
      SettlesAcross(s.cfg, w.now, w.mem, m, n, id);
    } else {
      RetiredFacts(s, w, id);
    }
  }

  lemma FinishSettles(s: Setup, w: World, id: Id)
    requires Inv(s, w) && id in w.hand && w.hand[id].phase.Finishing?
    ensures Settles(s.cfg, w.now, w.mem, FinishHandoff(s.cfg, w, id).mem, id)
  {
    hide Inv, MemInv, Retire, Touches, Settles, TimeoutsAgree, TerminalTransition;
    HandFacts(s, w, id);
    FinishTouches(s, w, id);
    NothingSettles(s.cfg, w.now, w.mem, id);
    if id in w.mem.live {
      DeliverSettles(s.cfg, w.now, w.mem, id, w.mem.live[id]);
    } else {
      RetiredFacts(s, w, id);
      FinishNothing(s, w, id);
    }
  }

  lemma FinishNothing(s: Setup, w: World, id: Id)
    requires id in w.hand && w.hand[id].phase.Finishing? && id !in w.mem.live && id !in w.mem.pending
    ensures FinishHandoff(s.cfg, w, id).mem == w.mem
  {
    assert w.mem.pending - {id} == w.mem.pending;
  }

  lemma TimeoutSettles(s: Setup, w: World, id: Id)
    requires Inv(s, w) && (id in w.mem.live ==> w.mem.live[id].timedOnce)
    ensures Settles(s.cfg, w.now, w.mem, Timeout(s.cfg, w.now, w.mem, id).0, id)
  {
    hide Inv, MemInv, Settles, Conclude, TimersAgree;
    LiveFacts(s, w, id);
    NothingSettles(s.cfg, w.now, w.mem, id);
    if id in w.mem.live {
      ConcludeSettles(s.cfg, w.now, w.mem, id, TimedOut, TimeoutResponse(s.cfg, w.mem.live[id]));
    }
  }

  lemma ExecSubjectSettles(s: Setup, w: World, step: Step)
    requires Inv(s, w) && Enabled(s, w, step) && Subject(step).Some? && OfExecutor(step)
    ensures Settles(s.cfg, w.now, w.mem, Apply(s, w, step).mem, Subject(step).value)
  {
    hide Inv, MemInv, Settles, Conclude, MarkInFlight, Advance, BuffersAgree, TimersAgree;
    var id := step.id;
    LiveFacts(s, w, id);
    if step.ExecPreparing? { AdvanceSettles(s.cfg, w.now, w.mem, id, PreparingDispatch); }
    else if step.ExecPublishing? { AdvanceSettles(s.cfg, w.now, w.mem, id, PendingPublish); }
    else if step.ExecInFlight? { MarkInFlightSettles(s.cfg, w.now, w.mem, id); }
    else { ConcludeSettles(s.cfg, w.now, w.mem, id, Failed, Some(step.text)); }
  }

  lemma HandSubjectSettles(s: Setup, w: World, step: Step)
    requires Inv(s, w) && Enabled(s, w, step) && Subject(step).Some? && OfHandoff(step)
    ensures Settles(s.cfg, w.now, w.mem, Apply(s, w, step).mem, Subject(step).value)
  {
    hide Inv, MemInv, Settles, ResumeSaved, ResumeFailed, FinishHandoff;
    if step.HandoffSaved? { SavedSettles(s, w, step.id); }
    else if step.HandoffFailed? { FailedSettles(s, w, step.id); }
    else { FinishSettles(s, w, step.id); }
  }

  lemma OtherSubjectSettles(s: Setup, w: World, step: Step)
    requires Inv(s, w) && Enabled(s, w, step) && Subject(step).Some? && !OfExecutor(step) && !OfHandoff(step)
    ensures Settles(s.cfg, w.now, w.mem, Apply(s, w, step).mem, Subject(step).value)
  {
    hide Inv, MemInv, Settles, Conclude, Complete, DispatchTimeoutFail, BeginHandoff, Timeout, BuffersAgree,
        TimersAgree;
    var id := step.id;
    LiveFacts(s, w, id);
    if step.ResultComplete? { CompleteSettles(s.cfg, w.now, w.mem, id, step.response); }
    else if step.ResultFail? { ConcludeSettles(s.cfg, w.now, w.mem, id, Failed, step.response); }
    else if step.ResultRetain? { BeginSettles(s.cfg, w.now, w.mem, id); NothingSettles(s.cfg, w.now, w.mem, id); }
    else if step.TimerFires? { TimeoutSettles(s, w, id); }
    else { DispatchTimeoutSettles(s.cfg, w.now, w.mem, id); }
  }

  /** Whatever step works on transaction `id` settles it. */
  lemma SubjectSettles(s: Setup, w: World, step: Step)
    requires Inv(s, w) && Enabled(s, w, step) && Subject(step).Some?
    ensures Settles(s.cfg, w.now, w.mem, Apply(s, w, step).mem, Subject(step).value)
  {
    hide Inv, Apply, Enabled, Settles;
    if OfExecutor(step) { ExecSubjectSettles(s, w, step); }
    else if OfHandoff(step) { HandSubjectSettles(s, w, step); }
    else { OtherSubjectSettles(s, w, step); }
  }
}
