/** The request manager's guarantees about locks, tables and terminal events, over all runs. */
module RequestTheorems {
  import opened Common
  import opened Transactions
  import opened Manager
  import opened ManagerInvariants
  import opened World
  import opened WorldInvariants
  import opened WorldSteps
  import opened WorldEffects

  /** The mutex, the holder and the owner phase agree, and the holder is what the phase says. */
  lemma LockSafety(s: Setup, w: World)
    requires Reachable(s, w)
    ensures var m := w.mem;
            && (m.locked <==> m.holder.Some?)
            && (m.locked <==> m.owner != LockNone)
            && (m.owner.OwnedByRPC? ==> m.holder.value in m.live && !m.live[m.holder.value].handoff)
            && (m.owner.TransferPending? ==>
                  && m.holder.value in m.live && m.live[m.holder.value].handoff
                  && m.live[m.holder.value].command == "upgrade" && m.holder.value in w.hand)
            && (m.owner.OwnedByOperation? ==> m.holder.value !in m.live && m.holder.value !in m.retired)
  {
    ReachableInv(s, w);
  }

  /** The request tables agree with each other, buffered replies have a reason, and capacity is kept. */
  lemma TablesSafety(s: Setup, w: World)
    requires Reachable(s, w)
    ensures var m := w.mem;
            && (forall k, id :: k in m.active && m.active[k] == id ==> k.Key? && id in m.live && m.live[id].key == k)
            && (forall id :: id in m.live && m.live[id].key.Key? ==>
                 m.live[id].key in m.active && m.active[m.live[id].key] == id)
            && (forall id :: id in m.pending ==> id in m.live && (PreFlight(m.live[id].state) || m.live[id].handoff))
            && (m.live == map[] || |m.live| <= s.cfg.maxConcurrent)
            && (forall id :: id in m.live ==> !Terminal(m.live[id].state))
            && (forall id :: id in m.retired ==> Terminal(m.retired[id].state) && id !in m.live)
  {
    ReachableInv(s, w);
    hide Identities, Processes, Records, Safety, FramesAgree, LockAgrees, OutboxAgrees, TimersAgree, CacheAgrees;
  }

  /** Along every run a transaction's state only advances, and a finished one is never touched again. */
  lemma LifecycleSafety(s: Setup, w: World, run: seq<Step>, id: Id)
    requires Reachable(s, w) && ValidRun(s, w, run) && (id in w.mem.live || id in w.mem.retired)
    ensures var v := Final(s, w, run);
            && (id in w.mem.retired ==> id in v.mem.retired && v.mem.retired[id] == w.mem.retired[id])
            && (id in w.mem.live && id in v.mem.live ==> Rank(w.mem.live[id].state) <= Rank(v.mem.live[id].state))
            && (id in w.mem.live ==> id in v.mem.live || id in v.mem.retired)
  {
    hide Inv;
    ReachableInv(s, w);
    ExecGrows(s, w, id);
    LifecycleFrom(s, w, run, id);
  }

  /** A time-out is only ever reached from InFlight, whatever the step. */
  lemma TimedOutOnlyFromInFlight(s: Setup, w: World, step: Step, id: Id)
    requires Reachable(s, w) && Enabled(s, w, step) && id in w.mem.live
    ensures var v := Apply(s, w, step);
            && (id in v.mem.live || id in v.mem.retired)
            && (id !in v.mem.live && v.mem.retired[id].state.TimedOut? ==> w.mem.live[id].state.InFlight?)
  {
    hide Inv, Enabled, Apply;
    ReachableInv(s, w);
    ExecGrows(s, w, id);
    LiveFacts(s, w, id);
    StepFollows(s, w, step, id);
  }

  lemma {:induction false} LifecycleFrom(s: Setup, w: World, run: seq<Step>, id: Id)
    requires Inv(s, w) && ValidRun(s, w, run) && id in w.exec
    ensures var v := Final(s, w, run);
            && (id in w.mem.retired ==> id in v.mem.retired && v.mem.retired[id] == w.mem.retired[id])
            && (id in w.mem.live && id in v.mem.live ==> Rank(w.mem.live[id].state) <= Rank(v.mem.live[id].state))
            && (id in w.mem.live ==> id in v.mem.live || id in v.mem.retired)
    decreases |run|
  {
    hide Inv, Enabled, Apply;
    IdFacts(s, w, id);
    if run != [] {
      var v := Apply(s, w, run[0]);
      StepFollows(s, w, run[0], id);
      StepKeeps(s, w, run[0]);
      ExecGrows(s, v, id);
      LifecycleFrom(s, v, run[1..], id);
      RunKeeps(s, v, run[1..]);
      RetiredNotLive(s, Final(s, w, run), id);
    }
  }

  lemma RetiredNotLive(s: Setup, w: World, id: Id)
    requires Inv(s, w)
    ensures id in w.mem.retired ==> id !in w.mem.live
  {
    hide Identities, Processes, Records, Safety, FramesAgree;
  }

  lemma ExecGrows(s: Setup, v: World, id: Id)
    requires Inv(s, v) && (id in v.mem.live || id in v.mem.retired)
    ensures id in v.exec
  {
    hide MemInv, Processes, Records, Safety, FramesAgree;
  }

  // ----- first terminal event wins -----

  /** A reply is buffered for a published transaction or one in handoff: its fate is sealed. */
  ghost predicate Decided(w: World, id: Id, reply: Reply) {
    && id in w.mem.live && id in w.mem.pending && w.mem.pending[id] == reply
    && (w.mem.live[id].state.PendingPublish? || w.mem.live[id].handoff)
  }

  ghost predicate EndedWith(w: World, id: Id, reply: Reply) {
    id in w.mem.retired && w.mem.retired[id].state == reply.state && w.mem.retired[id].payload == reply.payload
  }

  lemma RetireEnds(cfg: Config, now: Time, m: Mem, id: Id, tx: Tx, reply: Reply)
    ensures var n := Retire(cfg, now, m, id, tx, reply.state, reply.payload);
            id in n.retired && n.retired[id].state == reply.state && n.retired[id].payload == reply.payload
  {
  }

  lemma DecidedExec(s: Setup, w: World, step: Step, id: Id, reply: Reply)
    requires Inv(s, w) && Enabled(s, w, step) && Decided(w, id, reply) && OfExecutor(step) && Subject(step) == Some(id)
    ensures Decided(Apply(s, w, step), id, reply) || EndedWith(Apply(s, w, step), id, reply)
  {
    hide Inv, MemInv, MarkInFlight, Conclude, TimersAgree, Retire;
    LiveFacts(s, w, id);
    RetireEnds(s.cfg, w.now, w.mem, id, w.mem.live[id].(state := InFlight), reply);
    if step.ExecInFlight? {
      MarkInFlightForm(s.cfg, w.now, w.mem, id);
    } else if step.ExecFail? {
      ConcludeForm(s.cfg, w.now, w.mem, id, Failed, Some(step.text));
    }
  }

  lemma DecidedHand(s: Setup, w: World, step: Step, id: Id, reply: Reply)
    requires Inv(s, w) && Enabled(s, w, step) && Decided(w, id, reply) && OfHandoff(step) && Subject(step) == Some(id)
    ensures Decided(Apply(s, w, step), id, reply) || EndedWith(Apply(s, w, step), id, reply)
  {
    hide Inv, MemInv, ResumeSaved, ResumeFailed, FinishHandoff, Touches, Retire;
    if step.HandoffSaved? {
      SavedTouches(s, w, id);
    } else if step.HandoffFailed? {
      FailedTouches(s, w, id);
      RetireEnds(s.cfg, w.now, w.mem, id, w.mem.live[id].(handoff := false), reply);
    } else {
      FinishTouches(s, w, id);
      RetireEnds(s.cfg, w.now, w.mem, id, w.mem.live[id], reply);
    }
  }

  lemma DecidedOther(s: Setup, w: World, step: Step, id: Id, reply: Reply)
    requires Inv(s, w) && Enabled(s, w, step) && Decided(w, id, reply) && !OfExecutor(step) && !OfHandoff(step) &&
               Subject(step) == Some(id)
    ensures Decided(Apply(s, w, step), id, reply) || EndedWith(Apply(s, w, step), id, reply)
  {
    hide Inv, MemInv, Conclude, DispatchTimeoutFail, TimersAgree, Retire, ReceiveFrame, CacheSweep, BuffersAgree;
    LiveFacts(s, w, id);
    RetireEnds(s.cfg, w.now, w.mem, id, w.mem.live[id].(state := InFlight), reply);
    if step.ResultFail? {
      ConcludeForm(s.cfg, w.now, w.mem, id, Failed, step.response);
    } else if step.TimerFires? {
      ConcludeForm(s.cfg, w.now, w.mem, id, TimedOut, TimeoutResponse(s.cfg, w.mem.live[id]));
    } else if step.DispatchTimerFires? {
      if PreFlight(w.mem.live[id].state) {
        DispatchTimeoutForm(s.cfg, w.now, w.mem, id);
      } else {
        DispatchTimeoutIdle(s.cfg, w.now, w.mem, id);
      }
    }
  }

  lemma DispatchTimeoutIdle(cfg: Config, now: Time, m: Mem, id: Id)
    requires id in m.live && !PreFlight(m.live[id].state)
    ensures DispatchTimeoutFail(cfg, now, m, id) == m
  {
  }

  lemma DecidedStep(s: Setup, w: World, step: Step, id: Id, reply: Reply)
    requires Inv(s, w) && Enabled(s, w, step) && Decided(w, id, reply)
    ensures Decided(Apply(s, w, step), id, reply) || EndedWith(Apply(s, w, step), id, reply)
  {
    LiveFacts(s, w, id);
    IdFacts(s, w, id);
    hide Inv, Enabled, Apply;
    if Subject(step).None? {
      OthersUntouched(s, w, step, id);
    } else if Subject(step) != Some(id) {
      SubjectTouches(s, w, step);
      assert SameEntry(w.mem, Apply(s, w, step).mem, id);
    } else if OfExecutor(step) {
      DecidedExec(s, w, step, id, reply);
    } else if OfHandoff(step) {
      DecidedHand(s, w, step, id, reply);
    } else {
      DecidedOther(s, w, step, id, reply);
    }
  }

  /** Once a reply is buffered for a published or handed-over transaction, no later event can replace it. */
  lemma FirstTerminalWins(s: Setup, w: World, run: seq<Step>, id: Id, reply: Reply)
    requires Reachable(s, w) && ValidRun(s, w, run) && Decided(w, id, reply)
    ensures Decided(Final(s, w, run), id, reply) || EndedWith(Final(s, w, run), id, reply)
  {
    hide Inv;
    ReachableInv(s, w);
    FirstTerminalFrom(s, w, run, id, reply);
  }

  lemma {:induction false} FirstTerminalFrom(s: Setup, w: World, run: seq<Step>, id: Id, reply: Reply)
    requires Inv(s, w) && ValidRun(s, w, run) && (Decided(w, id, reply) || EndedWith(w, id, reply))
    ensures Decided(Final(s, w, run), id, reply) || EndedWith(Final(s, w, run), id, reply)
    decreases |run|
  {
    hide Inv, Enabled, Apply;
    if run != [] {
      if Decided(w, id, reply) {
        DecidedStep(s, w, run[0], id, reply);
      } else {
        ExecGrows(s, w, id);
        StepFollows(s, w, run[0], id);
      }
      StepKeeps(s, w, run[0]);
      FirstTerminalFrom(s, Apply(s, w, run[0]), run[1..], id, reply);
    }
  }

  /** Every competing terminal call is told that it lost. */
  lemma CompetitorsLose(s: Setup, w: World, id: Id, response: Option<Bytes>)
    requires Reachable(s, w)
    ensures id in w.mem.pending && Decided(w, id, w.mem.pending[id]) ==>
              && Complete(s.cfg, w.now, w.mem, id, response).1 == Some(AlreadyTerminal)
              && Fail(s.cfg, w.now, w.mem, id, response).1 == Some(AlreadyTerminal)
              && Timeout(s.cfg, w.now, w.mem, id).1 == Some(AlreadyTerminal)
    ensures id in w.mem.retired ==>
              && Complete(s.cfg, w.now, w.mem, id, response).1 == Some(TransactionNotFound)
              && Fail(s.cfg, w.now, w.mem, id, response).1 == Some(TransactionNotFound)
              && Timeout(s.cfg, w.now, w.mem, id).1 == Some(TransactionNotFound)
  {
    hide Inv, MemInv, Conclude, TimersAgree, Retire;
    ReachableInv(s, w);
    LiveFacts(s, w, id);
    RetiredNotLive(s, w, id);
    if id in w.mem.pending && Decided(w, id, w.mem.pending[id]) {
      LosingConclude(s.cfg, w.now, w.mem, id, Failed, response);
      LosingConclude(s.cfg, w.now, w.mem, id, TimedOut, TimeoutResponse(s.cfg, w.mem.live[id]));
    } else if id in w.mem.retired {
      ConcludeMissing(s.cfg, w.now, w.mem, id, Failed, response);
    }
  }

  lemma LosingConclude(cfg: Config, now: Time, m: Mem, id: Id, final: TxState, payload: Option<Bytes>)
    requires id in m.live && id in m.pending && (m.live[id].state.PendingPublish? || m.live[id].handoff)
    ensures Conclude(cfg, now, m, id, final, payload).1 == Some(AlreadyTerminal)
  {
  }

  /** The reply is what the transaction ended with, or what is buffered for it. */
  ghost predicate Recorded(n: Mem, id: Id, reply: Reply) {
    || (id in n.pending && n.pending[id] == reply)
    || (id !in n.live && id in n.retired && n.retired[id].state == reply.state &&
         n.retired[id].payload == reply.payload)
  }

  /** When a terminal call reports success its reply is recorded: the transaction's outcome, or buffered. */
  lemma SuccessIsRecorded(cfg: Config, now: Time, m: Mem, id: Id, response: Option<Bytes>)
    ensures var (n, e) := Complete(cfg, now, m, id, response); e.None? ==> Recorded(n, id, Reply(response, Completed))
    ensures var (n, e) := Fail(cfg, now, m, id, response); e.None? ==> Recorded(n, id, Reply(response, Failed))
    ensures var (n, e) := Timeout(cfg, now, m, id);
            e.None? ==> id in m.live && Recorded(n, id, Reply(TimeoutResponse(cfg, m.live[id]), TimedOut))
  {
    hide Conclude, Complete;
    CompleteRecords(cfg, now, m, id, response);
    ConcludeRecords(cfg, now, m, id, Failed, response);
    if id in m.live { ConcludeRecords(cfg, now, m, id, TimedOut, TimeoutResponse(cfg, m.live[id])); }
  }

  lemma CompleteRecords(cfg: Config, now: Time, m: Mem, id: Id, response: Option<Bytes>)
    ensures var (n, e) := Complete(cfg, now, m, id, response); e.None? ==> Recorded(n, id, Reply(response, Completed))
  {
  }

  lemma ConcludeRecords(cfg: Config, now: Time, m: Mem, id: Id, final: TxState, payload: Option<Bytes>)
    ensures var (n, e) := Conclude(cfg, now, m, id, final, payload); e.None? ==> Recorded(n, id, Reply(payload, final))
  {
    hide TerminalTransition, Deliver;
    TerminalRecords(cfg, now, m, id, final, payload);
    TerminalRecords(cfg, now, m.(pending := m.pending - {id}), id, final, payload);
  }

  lemma TerminalRecords(cfg: Config, now: Time, m: Mem, id: Id, final: TxState, payload: Option<Bytes>)
    ensures var (n, e) := TerminalTransition(cfg, now, m, id, final, payload);
              e.None? ==> Recorded(n, id, Reply(payload, final))
  {
  }

  /** The reply is still buffered for transaction `id`, or is what it ended with. */
  ghost predicate Survives(w: World, id: Id, reply: Reply) {
    (id in w.mem.live && id in w.mem.pending && w.mem.pending[id] == reply) || EndedWith(w, id, reply)
  }

  /**
   * A reply buffered for a transaction that is not published yet has not won: a failure may replace it,
   * and that failure is reported as a success.
   */
  lemma UndecidedCanBeReplaced(s: Setup, w: World, id: Id, response: Option<Bytes>)
    requires Inv(s, w) && id in w.mem.pending && !Decided(w, id, w.mem.pending[id])
    ensures Fail(s.cfg, w.now, w.mem, id, response).1.None?
    ensures var step := ResultFail(id, response);
            Enabled(s, w, step) && EndedWith(Apply(s, w, step), id, Reply(response, Failed))
  {
    hide Inv, MemInv, Conclude, TimersAgree, Retire, Apply, Enabled;
    LiveFacts(s, w, id);
    ConcludeForm(s.cfg, w.now, w.mem, id, Failed, response);
    RetireEnds(s.cfg, w.now, w.mem, id, w.mem.live[id], Reply(response, Failed));
    FailStep(s, w, id, response);
  }

  lemma FailStep(s: Setup, w: World, id: Id, response: Option<Bytes>)
    ensures var step := ResultFail(id, response);
            Enabled(s, w, step) && Apply(s, w, step) == w.(mem := Fail(s.cfg, w.now, w.mem, id, response).0)
  {
    hide Conclude;
  }

  /**
   * Exactly when the first terminal event wins: a buffered reply outlives every later run if and only if
   * its transaction is published or in a handoff.
   */
  lemma SurvivesExactlyWhen(s: Setup, w: World, id: Id)
    requires Reachable(s, w) && id in w.mem.pending
    ensures id in w.mem.live
    ensures w.mem.live[id].state.PendingPublish? || w.mem.live[id].handoff <==>
            forall run :: ValidRun(s, w, run) ==> Survives(Final(s, w, run), id, w.mem.pending[id])
  {
    hide Inv, MemInv, Reachable, ValidRun, Final, Apply, Enabled;
    ReachableInv(s, w);
    PendingIsLive(s, w, id);
    var reply := w.mem.pending[id];
    if Decided(w, id, reply) {
      forall run | ValidRun(s, w, run) ensures Survives(Final(s, w, run), id, reply) {
        FirstTerminalFrom(s, w, run, id, reply);
      }
    } else {
      var other := if reply.payload.None? then Some([]) else None;
      UndecidedCanBeReplaced(s, w, id, other);
      var step := ResultFail(id, other);
      OneStep(s, w, step);
      StepKeeps(s, w, step);
      RetiredNotLive(s, Apply(s, w, step), id);
      assert !Survives(Final(s, w, [step]), id, reply);
    }
  }

  lemma PendingIsLive(s: Setup, w: World, id: Id)
    requires Inv(s, w) && id in w.mem.pending
    ensures id in w.mem.live
  {
    hide Identities, Processes, Records, Safety, FramesAgree, LockAgrees, OutboxAgrees, TimersAgree, CacheAgrees;
  }

  /**
   * A Save that fails before the transaction was marked in flight reports AlreadyTerminal although the
   * transaction is still live, for want of a deadline; the caller's Fail then finishes it.
   */
  lemma UnpublishedSaveFailure(s: Setup, w: World, id: Id, response: Option<Bytes>)
    requires Reachable(s, w) && id in w.hand && w.hand[id].phase.Saving?
    requires id in w.mem.live && w.mem.live[id].state.PendingPublish? && id !in w.mem.pending
    ensures var (n, r) := ResumeFailed(s.cfg, w.now, w.mem, id);
            var (o, e) := Fail(s.cfg, w.now, n, id, response);
            && r == Returned(Some(AlreadyTerminal)) && id in n.live
            && e.None? && id !in o.live && id in o.retired && o.retired[id].state.Failed?
  {
    hide Inv, MemInv, Reachable, BuffersAgree, TimersAgree, ResumeFailed, Conclude;
    ReachableInv(s, w);
    LiveFacts(s, w, id);
    HandFacts(s, w, id);
    UnpublishedResume(s.cfg, w.now, w.mem, id);
    PlainFail(s.cfg, w.now, ResumeFailed(s.cfg, w.now, w.mem, id).0, id, response);
  }

  lemma UnpublishedResume(cfg: Config, now: Time, m: Mem, id: Id)
    requires id in m.live && m.live[id].state.PendingPublish? && m.live[id].deadline.None? && id !in m.pending
    ensures var (n, r) := ResumeFailed(cfg, now, m, id);
            && r == Returned(Some(AlreadyTerminal))
            && id in n.live && n.live[id].state.PendingPublish? && !n.live[id].handoff && id !in n.pending
  {
  }

  lemma PlainFail(cfg: Config, now: Time, m: Mem, id: Id, response: Option<Bytes>)
    requires id in m.live && m.live[id].state.PendingPublish? && !m.live[id].handoff && id !in m.pending
    ensures var (o, e) := Conclude(cfg, now, m, id, Failed, response);
            e.None? && id !in o.live && id in o.retired && o.retired[id].state.Failed?
  {
  }

  // ----- handing the lock over -----

  /** A handoff begins exactly for a published upgrade that holds the lock and is in no handoff yet. */
  lemma HandoffBeginsExactly(m: Mem, id: Id)
    ensures BeginHandoff(m, id).1 == None <==>
            && id in m.live && m.live[id].command == "upgrade"
            && m.live[id].state in {InFlight, PendingPublish}
            && m.holder == Some(id) && !m.live[id].handoff
    ensures BeginHandoff(m, id).0 ==
            if BeginHandoff(m, id).1 == None
            then m.(live := m.live[id := m.live[id].(handoff := true, timer := false)], owner := TransferPending)
            else m
  {
  }

  /**
   * A successful Save gives the lock to the operation. The transaction is then completed with its response, or,
   * if a reply arrived meanwhile, waits with that reply for the operation's release.
   */
  lemma SaveHandsOver(s: Setup, w: World, id: Id)
    requires Reachable(s, w) && id in w.hand && w.hand[id].phase.Saving? && id in w.mem.live
    ensures var h := w.hand[id];
            var (n, r) := ResumeSaved(s.cfg, w.now, w.mem, id, h.op, h.response);
            && n.locked && n.holder == Some(h.op) && n.owner == OwnedByOperation
            && (if id in w.mem.pending then
                  r == MustRelease(w.mem.pending[id]) && n.live == w.mem.live && n.pushed == w.mem.pushed
                else
                  && r == Returned(None) && n.live == w.mem.live - {id} && id in n.retired
                  && n.retired[id].state == Completed && n.retired[id].payload == h.response)
  {
    hide Inv, MemInv, Reachable, TimersAgree, BuffersAgree, RecOfHand, CacheSet, TTLForMethod;
    ReachableInv(s, w);
    HandFacts(s, w, id);
    LockHeld(s, w, id);
  }

  lemma LockHeld(s: Setup, w: World, id: Id)
    requires Inv(s, w) && id in w.hand && w.hand[id].phase.Saving? && id in w.mem.live
    ensures w.mem.locked && w.mem.holder == Some(id) && w.hand[id].op != id
  {
    hide TablesAgree, CacheAgrees, OutboxAgrees, TimersAgree, BuffersAgree, Records, Safety, FramesAgree;
    assert HandAgrees(w.mem.live, w.mem.pending, w.mem.holder, w.mem.owner, id, w.hand[id]);
  }

  // ----- nothing is stranded -----

  /** Something that is still going to run works towards the end of transaction `id`. */
  ghost predicate HasAgent(w: World, id: Id) {
    || (id in w.exec && w.exec[id] != Finished)
    || id in w.hand
    || (id in w.mem.live && w.mem.live[id].timer)
  }

  /** Every live transaction has a live agent, so every transaction-held lock has a releaser. */
  lemma NothingStranded(s: Setup, w: World, id: Id)
    requires Reachable(s, w) && id in w.mem.live
    ensures HasAgent(w, id)
    ensures w.mem.owner.OwnedByRPC? || w.mem.owner.TransferPending? ==>
              w.mem.holder.Some? && HasAgent(w, w.mem.holder.value)
  {
    ReachableInv(s, w);
    LiveHasAgent(s, w, id);
    if w.mem.owner.OwnedByRPC? || w.mem.owner.TransferPending? {
      LiveHasAgent(s, w, w.mem.holder.value);
    }
  }

  lemma LiveHasAgent(s: Setup, w: World, id: Id)
    requires Inv(s, w) && id in w.mem.live
    ensures HasAgent(w, id)
    ensures !w.mem.live[id].handoff && w.exec[id].Finished? ==> w.mem.live[id].state.InFlight? && w.mem.live[id].timer
    ensures w.mem.live[id].handoff <==> id in w.hand
  {
    LiveFacts(s, w, id);
  }
}
