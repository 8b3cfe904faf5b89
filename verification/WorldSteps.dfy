/** Every step keeps the invariant: one lemma per kind of effect, then one per step. */
module WorldSteps {
  import opened Common
  import opened Transactions
  import opened Manager
  import opened ManagerInvariants
  import opened OperationStore
  import opened FrameHandler
  import opened World
  import opened WorldInvariants

  // ----- a transaction leaves the table -----

  /** From `m` to `n` transaction `id` leaves the table; what happens to the lock is stated apart. */
  ghost predicate Gone(m: Mem, n: Mem, id: Id) {
    && id in m.live
    && n.live == m.live - {id}
    && n.pending == m.pending - {id}
    && n.retired.Keys == m.retired.Keys + {id}
    && n.releasing == m.releasing
    && (n.pushed == m.pushed ||
        (|n.pushed| == |m.pushed| + 1 && n.pushed[..|m.pushed|] == m.pushed &&
            n.pushed[|m.pushed|].origin == FromTransaction(id)))
  }

  ghost predicate Freed(m: Mem, n: Mem, id: Id) {
    if m.holder == Some(id) then n.holder == None && n.owner == LockNone else n.holder == m.holder && n.owner == m.owner
  }

  lemma RetireIsGone(cfg: Config, now: Time, m: Mem, id: Id, tx: Tx, final: TxState, payload: Option<Bytes>)
    requires id in m.live
    ensures var n := Retire(cfg, now, m, id, tx, final, payload); Gone(m, n, id) && Freed(m, n, id)
  {
  }

  lemma GoneFrames(m: Mem, n: Mem, id: Id, frames: nat, frameOf: map<Id, nat>)
    requires Gone(m, n, id) && FramesAgree(m.pushed, frames, frameOf)
    ensures FramesAgree(n.pushed, frames, frameOf)
  {
    assert forall i :: 0 <= i < |m.pushed| ==> n.pushed[i] == n.pushed[..|m.pushed|][i] == m.pushed[i];
  }

  /** The executor of `id` may move, and the handoff of `id` may end. */
  ghost predicate OnlyAgentsOf(w: World, id: Id, exec: map<Id, Pc>, hand: map<Id, Handoff>) {
    && exec.Keys == w.exec.Keys
    && (forall j :: j in w.exec && j != id ==> exec[j] == w.exec[j])
    && (hand == w.hand || hand == w.hand - {id})
  }

  lemma GoneIdentities(w: World, n: Mem, id: Id, exec: map<Id, Pc>, hand: map<Id, Handoff>)
    requires Identities(w) && Gone(w.mem, n, id) && OnlyAgentsOf(w, id, exec, hand)
    requires n.owner.OwnedByOperation? && n.holder.Some? ==>
               (n.holder == w.mem.holder && n.owner == w.mem.owner) || (id in w.hand && n.holder == Some(w.hand[id].op))
    ensures Identities(w.(mem := n, exec := exec, hand := hand))
  {
    assert n.live.Keys + n.retired.Keys == w.mem.live.Keys + w.mem.retired.Keys;
  }

  lemma GoneProcesses(w: World, n: Mem, id: Id, exec: map<Id, Pc>, hand: map<Id, Handoff>)
    requires Processes(w) && Gone(w.mem, n, id) && OnlyAgentsOf(w, id, exec, hand)
    requires Freed(w.mem, n, id) || (n.holder.Some? && n.holder.value !in w.exec && w.mem.holder == Some(id))
    requires forall j :: j in w.hand ==> j in w.exec
    ensures Processes(w.(mem := n, exec := exec, hand := hand))
  {
    forall j | j in hand
      ensures HandAgrees(n.live, n.pending, n.holder, n.owner, j, hand[j])
    {
      assert HandAgrees(w.mem.live, w.mem.pending, w.mem.holder, w.mem.owner, j, w.hand[j]);
    }
  }

  lemma GoneRecords(cfg: Config, w: World, n: Mem, id: Id, exec: map<Id, Pc>, hand: map<Id, Handoff>)
    requires Records(cfg, w) && OnlyAgentsOf(w, id, exec, hand)
    ensures Records(cfg, w.(mem := n, exec := exec, hand := hand))
  {
    assert forall op :: Fresh(hand, op) ==> Fresh(w.hand, op);
  }

  /** Whatever is protected after an exit was protected before. */
  lemma GoneSafety(cfg: Config, w: World, n: Mem, id: Id, exec: map<Id, Pc>, hand: map<Id, Handoff>)
    requires Safety(cfg, w) && Gone(w.mem, n, id) && OnlyAgentsOf(w, id, exec, hand) && Freed(w.mem, n, id)
    ensures Safety(cfg, w.(mem := n, exec := exec, hand := hand))
  {
    assert forall op :: Protected(n.owner, n.holder, hand, op) ==> Protected(w.mem.owner, w.mem.holder, w.hand, op);
  }

  lemma GoneKeeps(s: Setup, w: World, n: Mem, id: Id, exec: map<Id, Pc>, hand: map<Id, Handoff>)
    requires Inv(s, w) && MemInv(s.cfg, w.now, n)
    requires Gone(w.mem, n, id) && Freed(w.mem, n, id) && OnlyAgentsOf(w, id, exec, hand)
    ensures Inv(s, w.(mem := n, exec := exec, hand := hand))
  {
    GoneIdentities(w, n, id, exec, hand);
    GoneProcesses(w, n, id, exec, hand);
    GoneRecords(s.cfg, w, n, id, exec, hand);
    GoneSafety(s.cfg, w, n, id, exec, hand);
    GoneFrames(w.mem, n, id, w.frames, w.frameOf);
  }

  /** Finishing a transaction keeps everything, whoever does it. */
  lemma RetireStep(s: Setup, w: World, id: Id, tx: Tx, final: TxState, payload: Option<Bytes>,
                   exec: map<Id, Pc>, hand: map<Id, Handoff>)
    requires Inv(s, w) && SameRequest(w.mem, id, tx) && Terminal(final) && OnlyAgentsOf(w, id, exec, hand)
    ensures Inv(s, w.(mem := Retire(s.cfg, w.now, w.mem, id, tx, final, payload), exec := exec, hand := hand))
  {
    hide MemInv, Retire, Gone, Freed, Identities, Processes, Records, Safety, FramesAgree;
    RetireKeeps(s.cfg, w.now, w.mem, id, tx, final, payload);
    RetireIsGone(s.cfg, w.now, w.mem, id, tx, final, payload);
    GoneKeeps(s, w, Retire(s.cfg, w.now, w.mem, id, tx, final, payload), id, exec, hand);
  }

  // ----- a reply is buffered, an executor moves, a transaction changes -----

  lemma BufferedKeeps(s: Setup, w: World, id: Id, reply: Reply, exec: map<Id, Pc>)
    requires Inv(s, w) && MemInv(s.cfg, w.now, w.mem.(pending := w.mem.pending[id := reply]))
    requires id in w.mem.live && id !in w.mem.pending && id in w.exec
    requires exec == w.exec || (w.mem.live[id].handoff && exec == w.exec[id := Finished])
    ensures Inv(s, w.(mem := w.mem.(pending := w.mem.pending[id := reply]), exec := exec))
  {
    hide StatesAgree, TablesAgree, BuffersAgree, LockAgrees, TimersAgree, CacheAgrees, OutboxAgrees, TxIds, OpIds,
        OpsOfSweep, OpsOfHands, OpsOfLock, RecsAgree, RecsOfHands, RecsOfSweep, Durable, SweepSafe, ReleasesSafe,
        FramesAgree, PcsAgree, HandsAgree;
    var n := w.mem.(pending := w.mem.pending[id := reply]);
    assert exec.Keys == w.exec.Keys;
    BufferedIdentities(w, n, exec);
    BufferedProcesses(w, id, reply, exec);
  }

  lemma BufferedProcesses(w: World, id: Id, reply: Reply, exec: map<Id, Pc>)
    requires Processes(w) && id in w.mem.live && id !in w.mem.pending && id in w.exec
    requires exec == w.exec || (w.mem.live[id].handoff && exec == w.exec[id := Finished])
    ensures Processes(w.(mem := w.mem.(pending := w.mem.pending[id := reply]), exec := exec))
  {
    var m := w.mem;
    var n := m.(pending := m.pending[id := reply]);
    forall j | j in w.hand
      ensures HandAgrees(n.live, n.pending, n.holder, n.owner, j, w.hand[j])
    {
      assert HandAgrees(m.live, m.pending, m.holder, m.owner, j, w.hand[j]);
    }
  }

  lemma BufferedIdentities(w: World, n: Mem, exec: map<Id, Pc>)
    requires Identities(w) && exec.Keys == w.exec.Keys
    requires n.live.Keys == w.mem.live.Keys && n.retired == w.mem.retired && n.holder == w.mem.holder &&
               n.releasing == w.mem.releasing
    requires n.owner == w.mem.owner || !n.owner.OwnedByOperation?
    ensures Identities(w.(mem := n, exec := exec))
  {
  }

  lemma ExecKeeps(s: Setup, w: World, id: Id, next: Pc)
    requires Inv(s, w) && id in w.exec
    requires id in w.mem.live ==> PcAgrees(w.mem.live[id], id in w.mem.pending, next)
    ensures Inv(s, w.(exec := w.exec[id := next]))
  {
    hide StatesAgree, TablesAgree, BuffersAgree, LockAgrees, TimersAgree, CacheAgrees, OutboxAgrees, TxIds, OpIds,
        OpsOfSweep, OpsOfHands, OpsOfLock, RecsAgree, RecsOfHands, RecsOfSweep, Durable, SweepSafe, ReleasesSafe,
        HandsAgree, FramesAgree;
    BufferedIdentities(w, w.mem, w.exec[id := next]);
  }

  /** Transaction `id` changes to `tx` under its executor; the lock keeps its holder. */
  lemma UpdatedKeeps(s: Setup, w: World, id: Id, tx: Tx, next: Pc)
    requires Inv(s, w) && id in w.mem.live && id in w.exec
    requires MemInv(s.cfg, w.now, Update(w.mem, id, tx))
    requires tx.handoff == w.mem.live[id].handoff && PcAgrees(tx, id in w.mem.pending, next)
    ensures Inv(s, w.(mem := Update(w.mem, id, tx), exec := w.exec[id := next]))
  {
    hide StatesAgree, TablesAgree, BuffersAgree, LockAgrees, TimersAgree, CacheAgrees, OutboxAgrees, TxIds, OpIds,
        OpsOfSweep, OpsOfHands, OpsOfLock, RecsAgree, RecsOfHands, RecsOfSweep, Durable, SweepSafe, ReleasesSafe,
        FramesAgree, PcsAgree, HandsAgree;
    var n := Update(w.mem, id, tx);
    assert n.live.Keys == w.mem.live.Keys;
    BufferedIdentities(w, n, w.exec[id := next]);
    UpdatedProcesses(w, id, tx, next);
  }

  lemma UpdatedProcesses(w: World, id: Id, tx: Tx, next: Pc)
    requires Processes(w) && id in w.mem.live && id in w.exec
    requires tx.handoff == w.mem.live[id].handoff && PcAgrees(tx, id in w.mem.pending, next)
    ensures Processes(w.(mem := Update(w.mem, id, tx), exec := w.exec[id := next]))
  {
    var m := w.mem;
    var n := Update(m, id, tx);
    forall j | j in w.hand
      ensures HandAgrees(n.live, n.pending, n.holder, n.owner, j, w.hand[j])
    {
      assert HandAgrees(m.live, m.pending, m.holder, m.owner, j, w.hand[j]);
    }
  }

  lemma LiveFacts(s: Setup, w: World, id: Id)
    requires Inv(s, w)
    ensures MemInv(s.cfg, w.now, w.mem)
    ensures BuffersAgree(w.mem.live, w.mem.pending) && TimersAgree(w.mem.live)
    ensures id in w.mem.live ==>
              && !Terminal(w.mem.live[id].state)
              && TimerAgrees(w.mem.live[id])
              && id in w.exec
              && PcAgrees(w.mem.live[id], id in w.mem.pending, w.exec[id])
  {
  }

  lemma AdvanceStep(s: Setup, w: World, id: Id, to: TxState, next: Pc)
    requires Inv(s, w) && MemInv(s.cfg, w.now, w.mem) && id in w.exec
    requires (to.PreparingDispatch? && next.Publishing?) || (to.PendingPublish? && next.Dispatching?)
    requires id in w.mem.live ==> ValidateTransition(w.mem.live[id].state, to).None?
    ensures Inv(s, ExecCall(w, id, Advance(w.mem, id, to), next))
  {
    hide Inv, MemInv, TimersAgree, BuffersAgree;
    if id in w.mem.live {
      AdvanceKeeps(s.cfg, w.now, w.mem, id, to);
      LiveFacts(s, w, id);
      UpdatedKeeps(s, w, id, w.mem.live[id].(state := to), next);
    } else {
      ExecKeeps(s, w, id, Failing);
    }
  }

  lemma ExecInFlightStep(s: Setup, w: World, id: Id)
    requires Inv(s, w) && AtPc(w, id, Marking)
    ensures Inv(s, w.(mem := MarkInFlight(s.cfg, w.now, w.mem, id).0, exec := w.exec[id := Finished]))
  {
    hide Inv, MemInv, Retire, MarkInFlight, BuffersAgree, TimersAgree;
    LiveFacts(s, w, id);
    var m := w.mem;
    var exec := w.exec[id := Finished];
    if id in m.live {
      MarkInFlightForm(s.cfg, w.now, m, id);
      var tx := m.live[id].(state := InFlight);
      if id in m.pending {
        RetireStep(s, w, id, tx, m.pending[id].state, m.pending[id].payload, exec, w.hand);
      } else {
        MarkInFlightKeeps(s.cfg, w.now, m, id);
        UpdatedKeeps(s, w, id, tx.(deadline := Some(w.now + tx.timeout), timer := true, timedOnce := true), Finished);
      }
    } else {
      MarkInFlightIdle(s.cfg, w.now, m, id);
      ExecKeeps(s, w, id, Finished);
    }
  }

  /** Fail and Timeout, called by a worker or a timer (executor unmoved) or by the executor itself. */
  lemma ConcludeStep(s: Setup, w: World, id: Id, final: TxState, payload: Option<Bytes>, exec: map<Id, Pc>)
    requires Inv(s, w) && (final.Failed? || final.TimedOut?)
    requires final.TimedOut? && id in w.mem.live ==> w.mem.live[id].state.InFlight?
    requires exec == w.exec || (id in w.exec && exec == w.exec[id := Finished])
    ensures Inv(s, w.(mem := Conclude(s.cfg, w.now, w.mem, id, final, payload).0, exec := exec))
  {
    hide Inv, MemInv, Retire, Conclude, BuffersAgree, TimersAgree;
    LiveFacts(s, w, id);
    var m := w.mem;
    if id in m.live {
      ConcludeForm(s.cfg, w.now, m, id, final, payload);
      var tx := m.live[id];
      if tx.handoff {
        if id !in m.pending {
          BufferKeeps(s.cfg, w.now, m, id, Reply(payload, final));
          BufferedKeeps(s, w, id, Reply(payload, final), exec);
        } else if exec != w.exec {
          ExecKeeps(s, w, id, Finished);
        }
      } else if id in m.pending && tx.state.PendingPublish? {
        RetireStep(s, w, id, tx.(state := InFlight), m.pending[id].state, m.pending[id].payload, exec, w.hand);
      } else {
        RetireStep(s, w, id, tx, final, payload, exec, w.hand);
      }
    } else {
      ConcludeMissing(s.cfg, w.now, m, id, final, payload);
      if exec != w.exec { ExecKeeps(s, w, id, Finished); }
    }
  }

  lemma ConcludeMissing(cfg: Config, now: Time, m: Mem, id: Id, final: TxState, payload: Option<Bytes>)
    requires id !in m.live
    ensures Conclude(cfg, now, m, id, final, payload) == (m, Some(TransactionNotFound))
  {
  }

  lemma CompleteStep(s: Setup, w: World, id: Id, response: Option<Bytes>)
    requires Inv(s, w)
    ensures Inv(s, w.(mem := Complete(s.cfg, w.now, w.mem, id, response).0))
  {
    hide Inv, MemInv, Retire, BuffersAgree, TimersAgree;
    LiveFacts(s, w, id);
    var m := w.mem;
    if id in m.live {
      if PreFlight(m.live[id].state) || m.live[id].handoff {
        if id !in m.pending {
          BufferKeeps(s.cfg, w.now, m, id, Reply(response, Completed));
          BufferedKeeps(s, w, id, Reply(response, Completed), w.exec);
        }
      } else {
        RetireStep(s, w, id, m.live[id], Completed, response, w.exec, w.hand);
      }
    }
  }

  lemma DispatchTimeoutStep(s: Setup, w: World, id: Id)
    requires Inv(s, w)
    ensures Inv(s, w.(mem := DispatchTimeoutFail(s.cfg, w.now, w.mem, id)))
  {
    hide Inv, MemInv, Retire, BuffersAgree, TimersAgree;
    LiveFacts(s, w, id);
    var m := w.mem;
    if id in m.live && PreFlight(m.live[id].state) {
      DispatchTimeoutForm(s.cfg, w.now, m, id);
      var tx := m.live[id];
      if id in m.pending && tx.state.PendingPublish? {
        RetireStep(s, w, id, tx.(state := InFlight), m.pending[id].state, m.pending[id].payload, w.exec, w.hand);
      } else {
        RetireStep(s, w, id, tx, Failed, None, w.exec, w.hand);
      }
    }
  }

  // ----- handoffs -----

  lemma RetainStep(s: Setup, w: World, id: Id, op: Id, response: Option<Bytes>)
    requires Inv(s, w) && op !in w.used
    ensures Inv(s, Retain(w, id, op, response))
  {
    hide MemInv, Identities, Processes, Records, Safety, FramesAgree;
    if BeginHandoff(w.mem, id).1.None? {
      BeginHandoffKeeps(s.cfg, w.now, w.mem, id);
      RetainIdentities(w, id, op, response);
      RetainProcesses(w, id, op, response);
      RetainRecords(s.cfg, w, id, op, response);
      RetainSafety(s.cfg, w, id, op, response);
    }
  }

  lemma HeadOfSweep(w: World)
    requires Identities(w) && w.sweep.Running? && w.sweep.ops != []
    ensures OpId(w.exec, w.used, w.sweep.ops[0].op)
  {
    assert SweepOps(w.sweep)[0] == w.sweep.ops[0];
  }

  lemma RetainForm(w: World, id: Id, op: Id, response: Option<Bytes>)
    requires Identities(w) && BeginHandoff(w.mem, id).1.None?
    ensures var v := Retain(w, id, op, response);
            && v == w.(mem := v.mem, hand := w.hand[id := Handoff(op, response, Stamping)], used := w.used + {op})
            && TxIds(v.mem.live, v.mem.retired, v.exec, v.frameOf, v.used) && OpsOfLock(v.exec, v.used, v.mem)
  {
    assert Retain(w, id, op, response).mem.live.Keys == w.mem.live.Keys;
    hide OpIds, OpsOfSweep, OpsOfHands;
  }

  lemma MoreUsed(w: World, used: set<Id>)
    requires Identities(w) && w.used <= used
    ensures OpIds(w.exec, used, w.store.Keys) && OpIds(w.exec, used, w.recs.Keys) && OpsOfSweep(w.exec, used, w.sweep)
  {
    hide OpsOfHands, OpsOfLock, TxIds;
  }

  lemma RetainHands(w: World, id: Id, op: Id, response: Option<Bytes>)
    requires Identities(w) && op !in w.used && BeginHandoff(w.mem, id).1.None?
    ensures OpsOfHands(w.exec, w.used + {op}, w.hand[id := Handoff(op, response, Stamping)])
  {
    hide OpIds, OpsOfSweep, OpsOfLock;
  }

  lemma RetainIdentities(w: World, id: Id, op: Id, response: Option<Bytes>)
    requires Identities(w) && op !in w.used && BeginHandoff(w.mem, id).1.None?
    ensures Identities(Retain(w, id, op, response))
  {
    hide Retain, OpId, OpIds, OpsOfSweep, OpsOfHands, OpsOfLock, TxIds;
    var v := Retain(w, id, op, response);
    RetainForm(w, id, op, response);
    MoreUsed(w, v.used);
    RetainHands(w, id, op, response);
  }

  lemma RetainProcesses(w: World, id: Id, op: Id, response: Option<Bytes>)
    requires Processes(w) && BeginHandoff(w.mem, id).1.None?
    ensures Processes(Retain(w, id, op, response))
  {
    var v := Retain(w, id, op, response);
    forall j | j in v.hand && j != id
      ensures HandAgrees(v.mem.live, v.mem.pending, v.mem.holder, v.mem.owner, j, v.hand[j])
    {
      assert HandAgrees(w.mem.live, w.mem.pending, w.mem.holder, w.mem.owner, j, w.hand[j]);
    }
  }

  lemma RetainRecords(cfg: Config, w: World, id: Id, op: Id, response: Option<Bytes>)
    requires Records(cfg, w) && Identities(w) && op !in w.used && BeginHandoff(w.mem, id).1.None?
    ensures Records(cfg, Retain(w, id, op, response))
  {
    hide BeginHandoff;
    var v := Retain(w, id, op, response);
    assert forall o :: Fresh(v.hand, o) ==> o == op || Fresh(w.hand, o);
  }

  lemma RetainSafety(cfg: Config, w: World, id: Id, op: Id, response: Option<Bytes>)
    requires Safety(cfg, w) && Identities(w) && Processes(w) && op !in w.used && BeginHandoff(w.mem, id).1.None?
    ensures Safety(cfg, Retain(w, id, op, response))
  {
    if w.sweep.Running? && w.sweep.ops != [] { HeadOfSweep(w); }
  }

  /** The phase of one handoff changes; no lock, table or record is touched. */
  lemma PhaseIdentities(w: World, id: Id, phase: Phase)
    requires Identities(w) && id in w.hand
    ensures Identities(SetPhase(w, id, phase))
  {
  }

  lemma PhaseProcesses(w: World, id: Id, phase: Phase)
    requires Processes(w) && id in w.hand
    requires HandAgrees(w.mem.live, w.mem.pending, w.mem.holder, w.mem.owner, id, w.hand[id].(phase := phase))
    ensures Processes(SetPhase(w, id, phase))
  {
    var v := SetPhase(w, id, phase);
    forall j | j in v.hand && j != id
      ensures HandAgrees(v.mem.live, v.mem.pending, v.mem.holder, v.mem.owner, j, v.hand[j])
    {
      assert HandAgrees(w.mem.live, w.mem.pending, w.mem.holder, w.mem.owner, j, w.hand[j]);
    }
  }

  lemma SamePhaseKind(w: World, id: Id, phase: Phase)
    requires Processes(w) && id in w.hand && BeforeResume(w.hand[id].phase) && BeforeResume(phase)
    ensures Processes(SetPhase(w, id, phase))
  {
    assert HandAgrees(w.mem.live, w.mem.pending, w.mem.holder, w.mem.owner, id, w.hand[id]);
    PhaseProcesses(w, id, phase);
  }

  lemma LaterPhase(w: World, id: Id, phase: Phase)
    requires Processes(w) && id in w.hand && !BeforeResume(w.hand[id].phase) && !BeforeResume(phase)
    requires phase.reply == w.hand[id].phase.reply
    ensures Processes(SetPhase(w, id, phase))
  {
    assert HandAgrees(w.mem.live, w.mem.pending, w.mem.holder, w.mem.owner, id, w.hand[id]);
    PhaseProcesses(w, id, phase);
  }

  /** Protection of an operation does not depend on the phase of a handoff. */
  lemma PhaseProtects(w: World, id: Id, phase: Phase)
    requires id in w.hand
    ensures forall owner, holder, op ::
              Protected(owner, holder, SetPhase(w, id, phase).hand, op) <==> Protected(owner, holder, w.hand, op)
  {
  }

  lemma StampStep(s: Setup, w: World, id: Id)
    requires Inv(s, w) && id in w.hand && w.hand[id].phase.Stamping?
    ensures Inv(s, StampHandoff(s.cfg.bootID, w, id))
  {
    hide MemInv, Identities, PcsAgree, HandsAgree, Records, Safety, FramesAgree;
    var rec := Rec(w.hand[id].op, id, s.cfg.bootID, Some(Stamp(w.now)), true);
    PhaseIdentities(w, id, Saving(rec, false));
    SamePhaseKind(w, id, Saving(rec, false));
    StampIdentities(SetPhase(w, id, Saving(rec, false)), id, rec);
    StampRecords(s.cfg, w, id, rec);
    StampSafety(s.cfg, w, id, rec);
  }

  lemma StampIdentities(w: World, id: Id, rec: Rec)
    requires Identities(w) && id in w.hand && w.hand[id].op == rec.op
    ensures Identities(w.(recs := w.recs[rec.op := rec]))
  {
  }

  lemma StampRecords(cfg: Config, w: World, id: Id, rec: Rec)
    requires Records(cfg, w) && Identities(w) && id in w.hand && w.hand[id].phase.Stamping?
    requires rec.op == w.hand[id].op && rec.boot == cfg.bootID && rec.active
    ensures Records(cfg, SetPhase(w, id, Saving(rec, false)).(recs := w.recs[rec.op := rec]))
  {
    var v := SetPhase(w, id, Saving(rec, false)).(recs := w.recs[rec.op := rec]);
    assert RecOfHand(w.recs, w.store, w.hand[id]);
    assert Fresh(w.hand, rec.op);
    assert forall o :: Fresh(v.hand, o) ==> Fresh(w.hand, o);
    forall j | j in v.hand && j != id
      ensures RecOfHand(v.recs, v.store, v.hand[j])
    {
      assert RecOfHand(w.recs, w.store, w.hand[j]);
      assert w.hand[j].op != w.hand[id].op;
    }
  }

  lemma StampSafety(cfg: Config, w: World, id: Id, rec: Rec)
    requires Safety(cfg, w) && Records(cfg, w) && id in w.hand && w.hand[id].phase.Stamping? && rec.op == w.hand[id].op
    ensures Safety(cfg, SetPhase(w, id, Saving(rec, false)).(recs := w.recs[rec.op := rec]))
  {
    assert RecOfHand(w.recs, w.store, w.hand[id]);
    PhaseProtects(w, id, Saving(rec, false));
  }

  lemma WriteStep(s: Setup, w: World, id: Id)
    requires Inv(s, w) && id in w.hand && w.hand[id].phase.Saving?
    ensures Inv(s, WriteHandoff(w, id))
  {
    hide MemInv, Identities, PcsAgree, HandsAgree, Records, Safety, FramesAgree;
    var rec := w.hand[id].phase.rec;
    PhaseIdentities(w, id, Saving(rec, true));
    SamePhaseKind(w, id, Saving(rec, true));
    WriteRecords(s.cfg, w, id, rec);
    WriteIdentities(s.cfg, SetPhase(w, id, Saving(rec, true)), id, rec);
    WriteSafety(s.cfg, w, id, rec);
  }

  lemma WriteIdentities(cfg: Config, w: World, id: Id, rec: Rec)
    requires Identities(w) && id in w.hand && rec.op == w.hand[id].op
    ensures Identities(w.(store := w.store[rec.op := rec]))
  {
  }

  lemma WriteRecords(cfg: Config, w: World, id: Id, rec: Rec)
    requires Records(cfg, w) && Identities(w) && id in w.hand && w.hand[id].phase.Saving? && rec == w.hand[id].phase.rec
    ensures rec.op == w.hand[id].op
    ensures Records(cfg, SetPhase(w, id, Saving(rec, true)).(store := w.store[rec.op := rec]))
  {
    var v := SetPhase(w, id, Saving(rec, true)).(store := w.store[rec.op := rec]);
    assert RecOfHand(w.recs, w.store, w.hand[id]);
    assert forall o :: Fresh(v.hand, o) ==> Fresh(w.hand, o);
    forall j | j in v.hand && j != id
      ensures RecOfHand(v.recs, v.store, v.hand[j])
    {
      assert RecOfHand(w.recs, w.store, w.hand[j]);
      assert w.hand[j].op != w.hand[id].op;
    }
  }

  lemma WriteSafety(cfg: Config, w: World, id: Id, rec: Rec)
    requires Safety(cfg, w) && Records(cfg, w) && id in w.hand && w.hand[id].phase.Saving? &&
               rec == w.hand[id].phase.rec
    ensures Safety(cfg, SetPhase(w, id, Saving(rec, true)).(store := w.store[rec.op := rec]))
  {
    assert RecOfHand(w.recs, w.store, w.hand[id]);
    PhaseProtects(w, id, Saving(rec, true));
  }

  /** A handoff whose transaction is gone comes to its end. */
  lemma EndHandKeeps(s: Setup, w: World, id: Id)
    requires Inv(s, w) && id in w.hand && id !in w.mem.live
    ensures Inv(s, w.(hand := w.hand - {id}))
  {
    hide MemInv, FramesAgree, Identities, Processes, Records, Safety;
    EndHandProcesses(w, id);
    GoneRecords(s.cfg, w, w.mem, id, w.exec, w.hand - {id});
    EndHandSafety(s.cfg, w, id);
  }

  lemma EndHandProcesses(w: World, id: Id)
    requires Processes(w) && Identities(w) && id !in w.mem.live
    ensures Processes(w.(hand := w.hand - {id})) && Identities(w.(hand := w.hand - {id}))
  {
  }

  lemma EndHandSafety(cfg: Config, w: World, id: Id)
    requires Safety(cfg, w)
    ensures Safety(cfg, w.(hand := w.hand - {id}))
  {
    assert forall op :: Protected(w.mem.owner, w.mem.holder, w.hand - {id}, op) ==>
        Protected(w.mem.owner, w.mem.holder, w.hand, op);
  }

  /** A transaction whose handoff is over holds no lock once it is gone. */
  lemma RetiredFacts(s: Setup, w: World, id: Id)
    requires Inv(s, w) && id in w.exec && id !in w.mem.live
    ensures id !in w.mem.pending && w.mem.holder != Some(id)
  {
  }

  lemma HandFacts(s: Setup, w: World, id: Id)
    requires Inv(s, w) && id in w.hand
    ensures id in w.exec && w.hand[id].op !in w.exec && w.hand[id].op !in w.mem.live && w.hand[id].op in w.used
    ensures id in w.mem.live ==>
              w.mem.live[id].handoff &&
              (w.mem.live[id].state.InFlight? || w.mem.live[id].state.PendingPublish?)
    ensures id in w.mem.live && BeforeResume(w.hand[id].phase) ==>
              w.mem.holder == Some(id) && w.mem.owner.TransferPending?
    ensures id in w.mem.live && !BeforeResume(w.hand[id].phase) ==>
              id in w.mem.pending && w.mem.pending[id] == w.hand[id].phase.reply
    ensures !BeforeResume(w.hand[id].phase) ==> w.mem.holder != Some(id)
    ensures RecOfHand(w.recs, w.store, w.hand[id])
  {
    assert HandAgrees(w.mem.live, w.mem.pending, w.mem.holder, w.mem.owner, id, w.hand[id]);
    assert id in w.mem.live ==> TimerAgrees(w.mem.live[id]);
  }

  lemma FinishStep(s: Setup, w: World, id: Id)
    requires Inv(s, w) && id in w.hand && w.hand[id].phase.Finishing?
    ensures Inv(s, FinishHandoff(s.cfg, w, id))
  {
    hide Inv, MemInv, Retire, BuffersAgree, TimersAgree;
    LiveFacts(s, w, id);
    HandFacts(s, w, id);
    var m := w.mem;
    if id in m.live {
      DeliverForm(s.cfg, w.now, m, id);
      RetireStep(s, w, id, m.live[id], m.pending[id].state, m.pending[id].payload, w.exec, w.hand - {id});
    } else {
      RetiredFacts(s, w, id);
      assert m.pending - {id} == m.pending;
      EndHandKeeps(s, w, id);
    }
  }

  // ----- the store answers -----

  lemma FailedStep(s: Setup, w: World, id: Id)
    requires Inv(s, w) && id in w.hand && w.hand[id].phase.Saving?
    ensures Inv(s, Resume(w, id, ResumeFailed(s.cfg, w.now, w.mem, id)))
  {
    hide Inv, MemInv, Retire, BuffersAgree, TimersAgree, ResumeFailed, Reclaim;
    LiveFacts(s, w, id);
    HandFacts(s, w, id);
    var m := w.mem;
    if id in m.live {
      ResumeFailedForm(s.cfg, w.now, m, id);
      var tx := m.live[id].(handoff := false);
      if id in m.pending {
        RetireStep(s, w, id, tx, m.pending[id].state, m.pending[id].payload, w.exec, w.hand - {id});
      } else if tx.state.PendingPublish? {
        ReclaimedKeeps(s, w, id, tx);
      } else if w.now < tx.deadline.value {
        ReclaimedKeeps(s, w, id, tx.(timer := true, timedOnce := true));
      } else {
        RetireStep(s, w, id, tx, TimedOut, TimeoutResponse(s.cfg, tx), w.exec, w.hand - {id});
      }
    } else {
      RetiredFacts(s, w, id);
      ResumeFailedOnRetired(s.cfg, w.now, m, id);
      EndHandKeeps(s, w, id);
    }
  }

  /** The transaction has its lock back and its handoff is over. */
  lemma ReclaimedKeeps(s: Setup, w: World, id: Id, tx: Tx)
    requires Inv(s, w) && id in w.hand && BeforeResume(w.hand[id].phase) && id in w.mem.live && id !in w.mem.pending
    requires SameRequest(w.mem, id, tx) && TimerAgrees(tx) && !tx.handoff && tx.state == w.mem.live[id].state
    ensures Inv(s, w.(mem := Update(Reclaim(w.mem, id), id, tx), hand := w.hand - {id}))
    ensures tx == w.mem.live[id].(handoff := false) ==> Inv(s, w.(mem := Reclaim(w.mem, id), hand := w.hand - {id}))
  {
    hide MemInv, Identities, Processes, Records, Safety, FramesAgree;
    LiveFacts(s, w, id);
    HandFacts(s, w, id);
    ReclaimKeeps(s.cfg, w.now, w.mem, id, tx);
    ReclaimForm(w.mem, id, tx);
    var n := Update(w.mem, id, tx).(owner := OwnedByRPC);
    ReclaimedIdentities(w, n, id, tx);
    ReclaimedProcesses(w, n, id, tx);
    GoneRecords(s.cfg, w, n, id, w.exec, w.hand - {id});
    ReclaimedSafety(s.cfg, w, n, id);
  }

  lemma ReclaimedIdentities(w: World, n: Mem, id: Id, tx: Tx)
    requires Identities(w) && id in w.mem.live && n == Update(w.mem, id, tx).(owner := OwnedByRPC)
    ensures Identities(w.(mem := n, hand := w.hand - {id}))
  {
    assert n.live.Keys == w.mem.live.Keys;
  }

  lemma ReclaimedProcesses(w: World, n: Mem, id: Id, tx: Tx)
    requires Processes(w) && id in w.mem.live && n == Update(w.mem, id, tx).(owner := OwnedByRPC)
    requires w.mem.holder == Some(id) && w.mem.owner.TransferPending? && !tx.handoff && tx.state == w.mem.live[id].state
    requires id !in w.mem.pending
    ensures Processes(w.(mem := n, hand := w.hand - {id}))
  {
    forall j | j in w.hand - {id}
      ensures HandAgrees(n.live, n.pending, n.holder, n.owner, j, w.hand[j])
    {
      assert HandAgrees(w.mem.live, w.mem.pending, w.mem.holder, w.mem.owner, j, w.hand[j]);
    }
  }

  lemma ReclaimedSafety(cfg: Config, w: World, n: Mem, id: Id)
    requires Safety(cfg, w) && n.owner == OwnedByRPC && n.holder == w.mem.holder && n.releasing == w.mem.releasing
    ensures Safety(cfg, w.(mem := n, hand := w.hand - {id}))
  {
    assert forall op :: !Protected(n.owner, n.holder, w.hand - {id}, op);
  }

  lemma SavedStep(s: Setup, w: World, id: Id)
    requires Inv(s, w) && id in w.hand && w.hand[id].phase.Saving? && w.hand[id].phase.written
    ensures Inv(s, Resume(w, id, ResumeSaved(s.cfg, w.now, w.mem, id, w.hand[id].op, w.hand[id].response)))
  {
    hide Inv, MemInv, Retire, BuffersAgree, TimersAgree;
    LiveFacts(s, w, id);
    HandFacts(s, w, id);
    var m := w.mem;
    var op := w.hand[id].op;
    if id in m.live {
      if id in m.pending {
        TransferredKeeps(s, w, id);
      } else {
        TransferredRetires(s, w, id, w.hand[id].response);
      }
    } else {
      RetiredFacts(s, w, id);
      EndHandKeeps(s, w, id);
    }
  }

  lemma TransferredMem(cfg: Config, now: Time, m: Mem, id: Id, op: Id)
    requires MemInv(cfg, now, m) && op !in m.live && m.holder == Some(id)
    ensures MemInv(cfg, now, m.(holder := Some(op), owner := OwnedByOperation))
  {
  }

  /** The operation owns the lock while a buffered reply still waits to be delivered. */
  lemma TransferredKeeps(s: Setup, w: World, id: Id)
    requires Inv(s, w) && id in w.hand && w.hand[id].phase.Saving? && w.hand[id].phase.written
    requires id in w.mem.live && id in w.mem.pending
    ensures Inv(s, SetPhase(w.(mem := w.mem.(holder := Some(w.hand[id].op), owner := OwnedByOperation)), id,
                            Releasing(w.mem.pending[id])))
  {
    hide MemInv, Identities, Processes, Records, Safety, FramesAgree;
    HandFacts(s, w, id);
    var op := w.hand[id].op;
    var n := w.mem.(holder := Some(op), owner := OwnedByOperation);
    TransferredMem(s.cfg, w.now, w.mem, id, op);
    TransferredIdentities(w, n, id);
    PhaseIdentities(w.(mem := n), id, Releasing(w.mem.pending[id]));
    TransferredProcesses(w, n, id);
    TransferredRecords(s.cfg, w, n, id);
    TransferredSafety(s.cfg, w, n, id);
  }

  lemma TransferredIdentities(w: World, n: Mem, id: Id)
    requires Identities(w) && id in w.hand && n == w.mem.(holder := Some(w.hand[id].op), owner := OwnedByOperation)
    ensures Identities(w.(mem := n))
  {
  }

  lemma TransferredProcesses(w: World, n: Mem, id: Id)
    requires Processes(w) && Identities(w) && id in w.hand && id in w.mem.pending
    requires w.mem.holder == Some(id) && n == w.mem.(holder := Some(w.hand[id].op), owner := OwnedByOperation)
    ensures Processes(SetPhase(w.(mem := n), id, Releasing(w.mem.pending[id])))
  {
    var v := SetPhase(w.(mem := n), id, Releasing(w.mem.pending[id]));
    forall j | j in v.hand
      ensures HandAgrees(v.mem.live, v.mem.pending, v.mem.holder, v.mem.owner, j, v.hand[j])
    {
      assert HandAgrees(w.mem.live, w.mem.pending, w.mem.holder, w.mem.owner, j, w.hand[j]);
    }
  }

  lemma TransferredRecords(cfg: Config, w: World, n: Mem, id: Id)
    requires Records(cfg, w) && id in w.hand && w.hand[id].phase.Saving? && id in w.mem.pending
    ensures Records(cfg, SetPhase(w.(mem := n), id, Releasing(w.mem.pending[id])))
  {
    var v := SetPhase(w.(mem := n), id, Releasing(w.mem.pending[id]));
    assert forall o :: Fresh(v.hand, o) ==> Fresh(w.hand, o);
    assert RecOfHand(w.recs, w.store, w.hand[id]);
  }

  /** The lock moves from the transaction to its operation: the same operation stays protected. */
  lemma TransferredSafety(cfg: Config, w: World, n: Mem, id: Id)
    requires Safety(cfg, w) && id in w.hand && w.hand[id].phase.Saving? && w.hand[id].phase.written &&
               id in w.mem.pending
    requires w.mem.holder == Some(id) && w.mem.owner.TransferPending?
    requires n.holder == Some(w.hand[id].op) && n.owner.OwnedByOperation? && n.releasing == w.mem.releasing
    ensures Safety(cfg, SetPhase(w.(mem := n), id, Releasing(w.mem.pending[id])))
  {
    var v := SetPhase(w.(mem := n), id, Releasing(w.mem.pending[id]));
    assert forall op :: Protected(n.owner, n.holder, v.hand, op) <==> op == w.hand[id].op;
    assert Protected(w.mem.owner, w.mem.holder, w.hand, w.hand[id].op);
  }

  /** The operation owns the lock and the transaction is answered and gone. */
  lemma TransferredRetires(s: Setup, w: World, id: Id, response: Option<Bytes>)
    requires Inv(s, w) && id in w.hand && w.hand[id].phase.Saving? && w.hand[id].phase.written
    requires id in w.mem.live && id !in w.mem.pending
    ensures Inv(s, w.(mem := Retire(s.cfg, w.now, w.mem.(holder := Some(w.hand[id].op), owner := OwnedByOperation),
                                    id, w.mem.live[id], Completed, response),
                      hand := w.hand - {id}))
  {
    hide MemInv, Identities, Processes, Records, Safety, FramesAgree;
    HandFacts(s, w, id);
    var op := w.hand[id].op;
    var m := w.mem.(holder := Some(op), owner := OwnedByOperation);
    TransferredMem(s.cfg, w.now, w.mem, id, op);
    RetireKeeps(s.cfg, w.now, m, id, m.live[id], Completed, response);
    var n := Retire(s.cfg, w.now, m, id, m.live[id], Completed, response);
    RetireIsGone(s.cfg, w.now, m, id, m.live[id], Completed, response);
    assert op != id;
    assert Gone(w.mem, n, id) && n.holder == Some(op) && n.owner.OwnedByOperation?;
    GoneIdentities(w, n, id, w.exec, w.hand - {id});
    TransferredGone(w, n, id);
    GoneRecords(s.cfg, w, n, id, w.exec, w.hand - {id});
    TransferredGoneSafety(s.cfg, w, n, id);
    GoneFrames(w.mem, n, id, w.frames, w.frameOf);
  }

  lemma TransferredGone(w: World, n: Mem, id: Id)
    requires Processes(w) && Identities(w) && Gone(w.mem, n, id) && id in w.hand && n.holder == Some(w.hand[id].op)
    requires w.mem.holder == Some(id)
    ensures Processes(w.(mem := n, hand := w.hand - {id}))
  {
    GoneProcesses(w, n, id, w.exec, w.hand - {id});
  }

  lemma TransferredGoneSafety(cfg: Config, w: World, n: Mem, id: Id)
    requires Safety(cfg, w) && id in w.hand && w.hand[id].phase.Saving? && w.hand[id].phase.written
    requires w.mem.holder == Some(id) && w.mem.owner.TransferPending?
    requires n.holder == Some(w.hand[id].op) && n.owner.OwnedByOperation? && n.releasing == w.mem.releasing
    ensures Safety(cfg, w.(mem := n, hand := w.hand - {id}))
  {
    assert forall op :: Protected(n.owner, n.holder, w.hand - {id}, op) <==> op == w.hand[id].op;
    assert Protected(w.mem.owner, w.mem.holder, w.hand, w.hand[id].op);
  }

  // ----- releasing an operation -----

  /** Releasing operation `op` leaves nothing protected. */
  lemma FreedSafety(cfg: Config, w: World, op: Id)
    requires Safety(cfg, w)
    ensures Safety(cfg, w.(mem := w.mem.(releasing := Some(op), locked := false, holder := None, owner := LockNone)))
  {
  }

  lemma FreedKeeps(s: Setup, w: World, op: Id)
    requires Inv(s, w) && BeginRelease(w.mem, op).1.None? && OpId(w.exec, w.used, op)
    ensures Inv(s, w.(mem := BeginRelease(w.mem, op).0))
  {
    hide MemInv, FramesAgree, Identities, Processes, Records, Safety;
    ReleaseKeeps(s.cfg, w.now, w.mem, op);
    FreedSafety(s.cfg, w, op);
    FreedProcesses(w, op);
    FreedRecords(s.cfg, w, BeginRelease(w.mem, op).0);
  }

  lemma FreedRecords(cfg: Config, w: World, n: Mem)
    requires Records(cfg, w)
    ensures Records(cfg, w.(mem := n))
  {
  }

  lemma FreedProcesses(w: World, op: Id)
    requires Processes(w) && Identities(w) && BeginRelease(w.mem, op).1.None? && OpId(w.exec, w.used, op)
    ensures Processes(w.(mem := BeginRelease(w.mem, op).0)) && Identities(w.(mem := BeginRelease(w.mem, op).0))
  {
    var n := BeginRelease(w.mem, op).0;
    forall j | j in w.hand
      ensures HandAgrees(n.live, n.pending, n.holder, n.owner, j, w.hand[j])
    {
      assert HandAgrees(w.mem.live, w.mem.pending, w.mem.holder, w.mem.owner, j, w.hand[j]);
    }
  }

  /** One handoff moves on after its operation was released. */
  lemma LaterPhaseKeeps(s: Setup, w: World, id: Id, phase: Phase)
    requires Inv(s, w) && id in w.hand && !BeforeResume(w.hand[id].phase) && !BeforeResume(phase)
    requires phase.reply == w.hand[id].phase.reply
    requires phase.Deleting? || phase.Clearing? ==> !Protected(w.mem.owner, w.mem.holder, w.hand, w.hand[id].op)
    ensures Inv(s, SetPhase(w, id, phase))
  {
    hide MemInv, FramesAgree, Identities, Processes, Records, Safety;
    PhaseIdentities(w, id, phase);
    LaterPhase(w, id, phase);
    LaterPhaseRecords(s.cfg, w, id, phase);
    LaterPhaseSafety(s.cfg, w, id, phase);
  }

  lemma LaterPhaseRecords(cfg: Config, w: World, id: Id, phase: Phase)
    requires Records(cfg, w) && id in w.hand && !BeforeResume(w.hand[id].phase) && !BeforeResume(phase)
    ensures Records(cfg, SetPhase(w, id, phase))
  {
    var v := SetPhase(w, id, phase);
    assert forall o :: Fresh(v.hand, o) ==> Fresh(w.hand, o);
    assert RecOfHand(w.recs, w.store, w.hand[id]);
  }

  lemma LaterPhaseSafety(cfg: Config, w: World, id: Id, phase: Phase)
    requires Safety(cfg, w) && id in w.hand && !BeforeResume(w.hand[id].phase) && !BeforeResume(phase)
    requires phase.Deleting? || phase.Clearing? ==> !Protected(w.mem.owner, w.mem.holder, w.hand, w.hand[id].op)
    ensures Safety(cfg, SetPhase(w, id, phase))
  {
    PhaseProtects(w, id, phase);
  }

  lemma ReleaseStep(s: Setup, w: World, id: Id)
    requires Inv(s, w) && id in w.hand && w.hand[id].phase.Releasing?
    ensures Inv(s, ReleaseHandoff(w, id))
  {
    hide Inv;
    HandFacts(s, w, id);
    var op := w.hand[id].op;
    var reply := w.hand[id].phase.reply;
    if BeginRelease(w.mem, op).1.None? {
      FreedKeeps(s, w, op);
      LaterPhaseKeeps(s, w.(mem := BeginRelease(w.mem, op).0), id, Deleting(reply));
    } else {
      LaterPhaseKeeps(s, w, id, Finishing(reply));
    }
  }

  // ----- deleting a record -----

  /** Deleting a record nothing depends on, or an expired one, keeps everything. */
  lemma DeleteKeeps(s: Setup, w: World, op: Id, removed: bool)
    requires Inv(s, w)
    requires Protected(w.mem.owner, w.mem.holder, w.hand, op) ==>
               op in w.recs && Expired(s.cfg.sweeperTTL, w.recs[op], w.now)
    ensures Inv(s, DeleteRecord(w, op, removed))
  {
    hide MemInv, FramesAgree, PcsAgree, HandsAgree, TxIds, OpsOfSweep, OpsOfHands, OpsOfLock, RecsOfSweep, SweepSafe,
        ReleasesSafe;
  }

  lemma ReleasedFacts(s: Setup, w: World, id: Id)
    requires Inv(s, w) && id in w.hand && (w.hand[id].phase.Deleting? || w.hand[id].phase.Clearing?)
    ensures !Protected(w.mem.owner, w.mem.holder, w.hand, w.hand[id].op)
  {
  }

  lemma HandDeleteStep(s: Setup, w: World, id: Id, removed: bool)
    requires Inv(s, w) && id in w.hand && w.hand[id].phase.Deleting?
    ensures Inv(s, DeleteHandoff(w, id, removed))
  {
    hide Inv, Protected;
    ReleasedFacts(s, w, id);
    DeleteKeeps(s, w, w.hand[id].op, removed);
    LaterPhaseKeeps(s, DeleteRecord(w, w.hand[id].op, removed), id, Clearing(w.hand[id].phase.reply));
  }

  lemma EndReleaseKeeps(s: Setup, w: World, op: Id)
    requires Inv(s, w)
    ensures Inv(s, w.(mem := EndRelease(w.mem, op)))
  {
    hide MemInv, FramesAgree, Processes, Identities, Records, Safety;
    ReleaseKeeps(s.cfg, w.now, w.mem, op);
    EndReleaseRest(s.cfg, w, op);
  }

  lemma EndReleaseRest(cfg: Config, w: World, op: Id)
    requires Identities(w) && Processes(w) && Records(cfg, w) && Safety(cfg, w)
    ensures var v := w.(mem := EndRelease(w.mem, op));
              Identities(v) && Processes(v) && Records(cfg, v) && Safety(cfg, v)
  {
    hide TxIds, OpIds, OpsOfSweep, OpsOfHands, PcsAgree, HandsAgree, RecsAgree, RecsOfHands, RecsOfSweep, Durable,
        SweepSafe;
  }

  lemma ClearStep(s: Setup, w: World, id: Id)
    requires Inv(s, w) && id in w.hand && w.hand[id].phase.Clearing?
    ensures Inv(s, ClearHandoff(w, id))
  {
    hide Inv, Protected;
    EndReleaseKeeps(s, w, w.hand[id].op);
    LaterPhaseKeeps(s, w.(mem := EndRelease(w.mem, w.hand[id].op)), id, Finishing(w.hand[id].phase.reply));
  }

  // ----- the sweeper -----

  /** Only the sweeper moves; its new list is part of the old one, or freshly read from the store. */
  lemma SweepKeeps(s: Setup, w: World, sweep: Sweep)
    requires Inv(s, w)
    requires forall i :: 0 <= i < |SweepOps(sweep)| ==>
               SweepOps(sweep)[i] in SweepOps(w.sweep) ||
                   (SweepOps(sweep)[i].op in w.store && w.store[SweepOps(sweep)[i].op] == SweepOps(sweep)[i])
    requires SweepSafe(s.cfg.sweeperTTL, w.now, w.mem.owner, w.mem.holder, w.hand, sweep)
    ensures Inv(s, w.(sweep := sweep))
  {
    hide MemInv, FramesAgree, TxIds, OpsOfHands, OpsOfLock, PcsAgree, HandsAgree, Durable, SweepSafe, ReleasesSafe,
        Fresh;
    forall i | 0 <= i < |SweepOps(sweep)|
      ensures OpId(w.exec, w.used, SweepOps(sweep)[i].op)
      ensures !Fresh(w.hand, SweepOps(sweep)[i].op)
      ensures SweepOps(sweep)[i].op in w.recs ==> w.recs[SweepOps(sweep)[i].op] == SweepOps(sweep)[i]
    {
      var rec := SweepOps(sweep)[i];
      if rec in SweepOps(w.sweep) {
        var k :| 0 <= k < |SweepOps(w.sweep)| && SweepOps(w.sweep)[k] == rec;
      } else {
        StoredIsNotFresh(s.cfg, w, rec.op);
      }
    }
  }

  lemma StoredIsNotFresh(cfg: Config, w: World, op: Id)
    requires Records(cfg, w) && op in w.store
    ensures !Fresh(w.hand, op)
  {
    forall id | id in w.hand && w.hand[id].op == op
      ensures !w.hand[id].phase.Stamping?
    {
      assert RecOfHand(w.recs, w.store, w.hand[id]);
    }
  }

  lemma SweepFacts(s: Setup, w: World)
    requires Inv(s, w) && w.sweep.Running? && w.sweep.ops != []
    ensures var rec := w.sweep.ops[0];
            && OpId(w.exec, w.used, rec.op)
            && w.sweep.at <= w.now
            && !Fresh(w.hand, rec.op)
            && (rec.op in w.recs ==> w.recs[rec.op] == rec)
            && (Protected(w.mem.owner, w.mem.holder, w.hand, rec.op) ==>
                 rec.op in w.recs && Compatible(s.cfg.bootID, rec))
            && SweepSafe(s.cfg.sweeperTTL, w.now, w.mem.owner, w.mem.holder, w.hand, w.sweep)
  {
    hide MemInv, FramesAgree, TxIds, OpsOfLock, PcsAgree, HandsAgree;
    var rec := w.sweep.ops[0];
    assert SweepOps(w.sweep)[0] == rec;
    if Protected(w.mem.owner, w.mem.holder, w.hand, rec.op) && !w.mem.owner.OwnedByOperation? {
      assert RecOfHand(w.recs, w.store, w.hand[w.mem.holder.value]);
      assert w.hand[w.mem.holder.value].phase.Stamping? ==> Fresh(w.hand, rec.op);
    }
  }

  lemma NextRecordKeeps(s: Setup, w: World)
    requires Inv(s, w) && w.sweep.Running? && w.sweep.ops != []
    ensures Inv(s, NextRecord(w))
  {
    hide Inv;
    SweepFacts(s, w);
    SweepKeeps(s, w, NextRecord(w).sweep);
  }

  lemma CheckStep(s: Setup, w: World)
    requires Inv(s, w) && Sweeping(w, Checking)
    ensures Inv(s, CheckRecord(s.cfg, w))
  {
    hide Inv;
    SweepFacts(s, w);
    NextRecordKeeps(s, w);
    var rec := w.sweep.ops[0];
    SweepKeeps(s, w, w.sweep.(phase := Freeing));
    if !Compatible(s.cfg.bootID, rec) || Expired(s.cfg.sweeperTTL, rec, w.sweep.at) ||
       (!w.mem.owner.TransferPending? && w.mem.holder != Some(rec.op)) {
      SweepKeeps(s, w, w.sweep.(phase := Removing));
    }
  }

  lemma RemoveStep(s: Setup, w: World, removed: bool)
    requires Inv(s, w) && Sweeping(w, Removing)
    ensures Inv(s, NextRecord(DeleteRecord(w, w.sweep.ops[0].op, removed)))
  {
    hide Inv, Protected;
    SweepFacts(s, w);
    DeleteKeeps(s, w, w.sweep.ops[0].op, removed);
    NextRecordKeeps(s, DeleteRecord(w, w.sweep.ops[0].op, removed));
  }

  lemma FreeStep(s: Setup, w: World)
    requires Inv(s, w) && Sweeping(w, Freeing)
    ensures Inv(s, FreeLock(w))
  {
    hide Inv;
    SweepFacts(s, w);
    var op := w.sweep.ops[0].op;
    if BeginRelease(w.mem, op).1.None? {
      FreedKeeps(s, w, op);
      var v := w.(mem := BeginRelease(w.mem, op).0);
      SweepKeeps(s, v, v.sweep.(phase := FreedDeleting));
    } else {
      NextRecordKeeps(s, w);
    }
  }

  lemma FreedDeleteStep(s: Setup, w: World, removed: bool)
    requires Inv(s, w) && Sweeping(w, FreedDeleting)
    ensures Inv(s, SetSweep(DeleteRecord(w, w.sweep.ops[0].op, removed), FreedClearing))
  {
    hide Inv, Protected;
    SweepFacts(s, w);
    DeleteKeeps(s, w, w.sweep.ops[0].op, removed);
    var v := DeleteRecord(w, w.sweep.ops[0].op, removed);
    SweepKeeps(s, v, v.sweep.(phase := FreedClearing));
  }

  lemma FreedClearStep(s: Setup, w: World)
    requires Inv(s, w) && Sweeping(w, FreedClearing)
    ensures Inv(s, NextRecord(w.(mem := EndRelease(w.mem, w.sweep.ops[0].op))))
  {
    hide Inv;
    EndReleaseKeeps(s, w, w.sweep.ops[0].op);
    NextRecordKeeps(s, w.(mem := EndRelease(w.mem, w.sweep.ops[0].op)));
  }

  lemma ReadStep(s: Setup, w: World, ops: seq<Rec>)
    requires Inv(s, w) && ActiveQuery(w.store, s.cfg.recordLimit, ops)
    ensures Inv(s, w.(sweep := Loaded(ops)))
  {
    hide Inv;
    SweepKeeps(s, w, Loaded(ops));
  }

  lemma ClockStep(s: Setup, w: World)
    requires Inv(s, w) && w.sweep.Loaded?
    ensures Inv(s, StartSweep(w))
  {
    hide Inv;
    SweepKeeps(s, w, StartSweep(w).sweep);
  }

  // ----- time, cache and frames -----

  lemma TickStep(s: Setup, w: World, t: Time)
    requires Inv(s, w) && w.now <= t
    ensures Inv(s, w.(now := t))
  {
    hide FramesAgree, TxIds, OpIds, OpsOfSweep, OpsOfHands, OpsOfLock, PcsAgree, HandsAgree, RecsAgree, RecsOfHands,
        RecsOfSweep, ReleasesSafe, StatesAgree, TablesAgree, BuffersAgree, LockAgrees, TimersAgree, OutboxAgrees;
  }

  lemma CacheStep(s: Setup, w: World)
    requires Inv(s, w)
    ensures Inv(s, w.(mem := w.mem.(cache := CacheSweep(w.mem.cache, w.now))))
  {
    hide FramesAgree, MemInv, TxIds, OpIds, OpsOfSweep, OpsOfHands, PcsAgree, HandsAgree, RecsAgree, RecsOfHands,
        RecsOfSweep, Durable, SweepSafe, ReleasesSafe;
    CacheSweepKeeps(s.cfg, w.now, w.mem);
  }

  lemma FrameSkipped(s: Setup, w: World)
    requires Inv(s, w)
    ensures Inv(s, w.(frames := w.frames + 1))
  {
    hide MemInv, TxIds, OpIds, OpsOfSweep, OpsOfHands, OpsOfLock, PcsAgree, HandsAgree, RecsAgree, RecsOfHands,
        RecsOfSweep, Durable, SweepSafe, ReleasesSafe;
  }

  lemma FrameAnswered(s: Setup, w: World, session: string, text: Bytes)
    requires Inv(s, w)
    ensures Inv(s, PushForFrame(w, session, text))
  {
    hide TxIds, OpIds, OpsOfSweep, OpsOfHands, PcsAgree, HandsAgree, RecsAgree, RecsOfHands, RecsOfSweep, Durable,
        SweepSafe, ReleasesSafe;
    hide StatesAgree, TablesAgree, BuffersAgree, LockAgrees, TimersAgree, CacheAgrees;
  }

  lemma FrameAdmitted(s: Setup, w: World, f: Inbound, respond: bool, changing: bool, id: Id)
    requires Inv(s, w) && f.Request? && id !in w.used
    requires CreateTransaction(s.cfg, w.now, w.mem, id, f.session, f.id, respond, f.command, f.timeout, changing).1.Ok?
    ensures var m := CreateTransaction(s.cfg, w.now, w.mem, id, f.session, f.id, respond, f.command, f.timeout,
              changing).0;
            Inv(s, w.(mem := m, exec := w.exec[id := Buffering], used := w.used + {id},
                      frameOf := w.frameOf[id := w.frames], frames := w.frames + 1))
  {
    hide MemInv, Identities, Processes, Records, Safety, FramesAgree;
    var m := CreateTransaction(s.cfg, w.now, w.mem, id, f.session, f.id, respond, f.command, f.timeout, changing).0;
    NewIdFacts(s, w, id);
    CreateKeeps(s.cfg, w.now, w.mem, id, f.session, f.id, respond, f.command, f.timeout, changing);
    AdmittedForm(s.cfg, w.now, w.mem, id, f, respond, changing);
    AdmittedIdentities(w, m, id);
    AdmittedProcesses(w, m, id);
    AdmittedRecords(s.cfg, w, m, id);
    AdmittedSafety(s.cfg, w, m, id);
    AdmittedFrames(w, id);
  }

  lemma NewIdFacts(s: Setup, w: World, id: Id)
    requires Inv(s, w) && id !in w.used
    ensures id !in w.mem.live && id !in w.mem.retired && w.mem.holder != Some(id) && id !in w.exec &&
              id !in w.hand && id !in w.frameOf
    ensures w.mem.locked <==> w.mem.holder.Some?
  {
    hide TablesAgree, CacheAgrees, OutboxAgrees, TimersAgree, BuffersAgree, Processes, Records, Safety, FramesAgree;
  }

  /** What a successful admission changes: one new transaction, and for a state-changing one the lock. */
  ghost predicate Admitted(m: Mem, n: Mem, id: Id) {
    && id in n.live
    && n.live == m.live[id := n.live[id]]
    && n.live[id].state.Created? && !n.live[id].handoff
    && n.retired == m.retired && n.pending == m.pending && n.releasing == m.releasing && n.pushed == m.pushed
    && n.cache == m.cache
    && ((n.holder == m.holder && n.owner == m.owner) || (!m.locked && n.holder == Some(id) && n.owner.OwnedByRPC?))
  }

  lemma AdmittedForm(cfg: Config, now: Time, m: Mem, id: Id, f: Inbound, respond: bool, changing: bool)
    requires f.Request?
    requires CreateTransaction(cfg, now, m, id, f.session, f.id, respond, f.command, f.timeout, changing).1.Ok?
    ensures var n := CreateTransaction(cfg, now, m, id, f.session, f.id, respond, f.command, f.timeout, changing).0;
            && Admitted(m, n, id) && n.live[id].session == f.session && n.live[id].respond == respond
            && n.live[id].cloudId == f.id && n.live[id].command == f.command
            && RequestKey(f.session, f.id) == Some(n.live[id].key)
  {
  }

  lemma AdmittedIdentities(w: World, n: Mem, id: Id)
    requires Identities(w) && Admitted(w.mem, n, id) && id !in w.used
    ensures Identities(w.(mem := n, exec := w.exec[id := Buffering], used := w.used + {id},
                          frameOf := w.frameOf[id := w.frames], frames := w.frames + 1))
  {
  }

  lemma AdmittedProcesses(w: World, n: Mem, id: Id)
    requires Processes(w) && Admitted(w.mem, n, id) && id !in w.exec && id !in w.hand &&
               (w.mem.locked <==> w.mem.holder.Some?)
    ensures Processes(w.(mem := n, exec := w.exec[id := Buffering], used := w.used + {id},
                         frameOf := w.frameOf[id := w.frames], frames := w.frames + 1))
  {
    forall j | j in w.hand
      ensures HandAgrees(n.live, n.pending, n.holder, n.owner, j, w.hand[j])
    {
      assert HandAgrees(w.mem.live, w.mem.pending, w.mem.holder, w.mem.owner, j, w.hand[j]);
    }
  }

  lemma AdmittedRecords(cfg: Config, w: World, n: Mem, id: Id)
    requires Records(cfg, w)
    ensures Records(cfg, w.(mem := n, exec := w.exec[id := Buffering], used := w.used + {id},
                            frameOf := w.frameOf[id := w.frames], frames := w.frames + 1))
  {
    hide RecsAgree, RecsOfHands, RecsOfSweep;
  }

  lemma AdmittedSafety(cfg: Config, w: World, n: Mem, id: Id)
    requires Safety(cfg, w) && Admitted(w.mem, n, id)
    ensures Safety(cfg, w.(mem := n, exec := w.exec[id := Buffering], used := w.used + {id},
                           frameOf := w.frameOf[id := w.frames], frames := w.frames + 1))
  {
    assert forall op :: Protected(n.owner, n.holder, w.hand, op) ==> Protected(w.mem.owner, w.mem.holder, w.hand, op);
  }

  lemma AdmittedFrames(w: World, id: Id)
    requires FramesAgree(w.mem.pushed, w.frames, w.frameOf) && id !in w.frameOf
    ensures FramesAgree(w.mem.pushed, w.frames + 1, w.frameOf[id := w.frames])
  {
    var frameOf := w.frameOf[id := w.frames];
    forall n | n in frameOf.Values
      ensures n in w.frameOf.Values || n == w.frames
    {
      var j :| j in frameOf && frameOf[j] == n;
    }
  }

  lemma AdmitStep(s: Setup, w: World, f: Inbound, respond: bool, changing: bool, id: Id, text: Bytes)
    requires Inv(s, w) && f.Request? && id !in w.used
    ensures Inv(s, AdmitFrame(s, w, f, respond, changing, id, text))
  {
    hide Inv, CreateTransaction, PushForFrame;
    var r := CreateTransaction(s.cfg, w.now, w.mem, id, f.session, f.id, respond, f.command, f.timeout, changing).1;
    if r.Ok? {
      FrameAdmitted(s, w, f, respond, changing, id);
    } else if r.error.CachedResponse? {
      FrameAnswered(s, w, f.session, r.error.payload);
    } else if respond {
      FrameAnswered(s, w, f.session, text);
    } else {
      FrameSkipped(s, w);
    }
  }

  lemma FrameStep(s: Setup, w: World, f: Inbound, degraded: bool, id: Id, text: Bytes)
    requires Inv(s, w) && id !in w.used
    ensures Inv(s, ReceiveFrame(s, w, f, degraded, id, text))
  {
    hide Inv, Decide, PushForFrame, AdmitFrame;
    match Decide(s.limits, degraded, f)
    case Ignore => FrameSkipped(s, w);
    case Answer => FrameAnswered(s, w, f.session, text);
    case Admit(respond, changing) => AdmitStep(s, w, f, respond, changing, id, text);
  }

  // ----- every step -----

  lemma HandoffStepKeeps(s: Setup, w: World, step: Step)
    requires Inv(s, w) && Enabled(s, w, step) && OfHandoff(step)
    ensures Inv(s, Apply(s, w, step))
  {
    hide Inv, StampHandoff, WriteHandoff, Resume, ResumeSaved, ResumeFailed, ReleaseHandoff, DeleteHandoff,
        ClearHandoff, FinishHandoff;
    if step.HandoffStamp? { StampStep(s, w, step.id); }
    else if step.HandoffWrite? { WriteStep(s, w, step.id); }
    else if step.HandoffSaved? { SavedStep(s, w, step.id); }
    else if step.HandoffFailed? { FailedStep(s, w, step.id); }
    else if step.HandoffRelease? { ReleaseStep(s, w, step.id); }
    else if step.HandoffDelete? { HandDeleteStep(s, w, step.id, step.removed); }
    else if step.HandoffClear? { ClearStep(s, w, step.id); }
    else { FinishStep(s, w, step.id); }
  }

  lemma SweeperStepKeeps(s: Setup, w: World, step: Step)
    requires Inv(s, w) && Enabled(s, w, step) && OfSweeper(step)
    ensures Inv(s, Apply(s, w, step))
  {
    hide Inv, StartSweep, CheckRecord, NextRecord, FreeLock, SetSweep, EndRelease, DeleteRecord;
    if step.SweepRead? { ReadStep(s, w, step.ops); }
    else if step.SweepClock? { ClockStep(s, w); }
    else if step.SweepCheck? { CheckStep(s, w); }
    else if step.SweepRemove? { RemoveStep(s, w, step.removed); }
    else if step.SweepFree? { FreeStep(s, w); }
    else if step.SweepFreedDelete? { FreedDeleteStep(s, w, step.removed); }
    else { FreedClearStep(s, w); }
  }

  lemma ExecutorStepKeeps(s: Setup, w: World, step: Step)
    requires Inv(s, w) && Enabled(s, w, step) && OfExecutor(step)
    ensures Inv(s, Apply(s, w, step))
  {
    hide Inv, ExecCall, Advance, MarkInFlight, Conclude, MemInv, BuffersAgree, TimersAgree;
    LiveFacts(s, w, step.id);
    if step.ExecBuffer? { ExecKeeps(s, w, step.id, if step.full then Failing else Preparing); }
    else if step.ExecPreparing? { AdvanceStep(s, w, step.id, PreparingDispatch, Publishing); }
    else if step.ExecPublishing? { AdvanceStep(s, w, step.id, PendingPublish, Dispatching); }
    else if step.ExecDispatch? { ExecKeeps(s, w, step.id, if step.ok then Marking else Failing); }
    else if step.ExecInFlight? { ExecInFlightStep(s, w, step.id); }
    else { ConcludeStep(s, w, step.id, Failed, Some(step.text), w.exec[step.id := Finished]); }
  }

  lemma TimerStep(s: Setup, w: World, id: Id)
    requires Inv(s, w) && (id in w.mem.live ==> w.mem.live[id].timedOnce)
    ensures Inv(s, w.(mem := Timeout(s.cfg, w.now, w.mem, id).0))
  {
    hide Inv, MemInv, Conclude, BuffersAgree, TimersAgree;
    LiveFacts(s, w, id);
    if id in w.mem.live {
      ConcludeStep(s, w, id, TimedOut, TimeoutResponse(s.cfg, w.mem.live[id]), w.exec);
    }
  }

  lemma OtherStepKeeps(s: Setup, w: World, step: Step)
    requires Inv(s, w) && Enabled(s, w, step) && !OfHandoff(step) && !OfSweeper(step) && !OfExecutor(step)
    ensures Inv(s, Apply(s, w, step))
  {
    hide Inv, ReceiveFrame, Conclude, Complete, Retain, DispatchTimeoutFail, Timeout;
    if step.Tick? { TickStep(s, w, step.now); }
    else if step.Frame? { FrameStep(s, w, step.f, step.degraded, step.id, step.text); }
    else if step.ResultComplete? { CompleteStep(s, w, step.id, step.response); }
    else if step.ResultFail? { ConcludeStep(s, w, step.id, Failed, step.response, w.exec); }
    else if step.ResultRetain? { RetainStep(s, w, step.id, step.op, step.response); }
    else if step.TimerFires? { TimerStep(s, w, step.id); }
    else if step.DispatchTimerFires? { DispatchTimeoutStep(s, w, step.id); }
    else { CacheStep(s, w); }
  }

  /** Every enabled step keeps the invariant. */
  lemma StepKeeps(s: Setup, w: World, step: Step)
    requires Inv(s, w) && Enabled(s, w, step)
    ensures Inv(s, Apply(s, w, step))
  {
    hide Inv, Apply, Enabled;
    if OfHandoff(step) {
      HandoffStepKeeps(s, w, step);
    } else if OfSweeper(step) {
      SweeperStepKeeps(s, w, step);
    } else if OfExecutor(step) {
      ExecutorStepKeeps(s, w, step);
    } else {
      OtherStepKeeps(s, w, step);
    }
  }

  /** A freshly started process satisfies the invariant, whatever the store held. */
  lemma StartKeeps(s: Setup, before: map<Id, Rec>, ops: seq<Rec>, w: World)
    requires Started(s, before, ops, w)
    ensures Inv(s, w)
  {
    hide ActiveQuery, MemInv, Processes, Identities, Records, Safety;
    StartMem(s, w, ops);
    StartWorld(s, before, ops, w);
  }

  lemma StartMem(s: Setup, w: World, ops: seq<Rec>)
    requires w.mem == Recovered(s.cfg, w.now, ops)
    ensures MemInv(s.cfg, w.now, w.mem)
  {
  }

  lemma StartWorld(s: Setup, before: map<Id, Rec>, ops: seq<Rec>, w: World)
    requires Started(s, before, ops, w)
    ensures Identities(w) && Processes(w) && Records(s.cfg, w) && Safety(s.cfg, w)
  {
    hide ActiveQuery;
    if FirstRecoverable(s.cfg.bootID, s.cfg.sweeperTTL, w.now, ops).Some? {
      RecoveredIsKept(s, before, ops, w, FirstRecoverable(s.cfg.bootID, s.cfg.sweeperTTL, w.now, ops).value);
    }
  }

  /** Start never deletes the record it recovers. */
  lemma RecoveredIsKept(s: Setup, before: map<Id, Rec>, ops: seq<Rec>, w: World, rec: Rec)
    requires Started(s, before, ops, w) && rec in ops && Compatible(s.cfg.bootID, rec)
    ensures rec.op in w.store && w.store[rec.op] == rec && rec.active && rec.op in w.used
  {
    var k :| 0 <= k < |ops| && ops[k] == rec;
    forall j | 0 <= j < |ops| && ops[j].op == rec.op
      ensures Compatible(s.cfg.bootID, ops[j])
    {
      assert j == k;
    }
    assert !StaleBoot(s.cfg, ops, rec.op);
  }

  lemma {:induction false} RunKeeps(s: Setup, w: World, run: seq<Step>)
    requires Inv(s, w) && ValidRun(s, w, run)
    ensures Inv(s, Final(s, w, run))
    decreases |run|
  {
    hide Inv, Apply, Enabled;
    if run != [] {
      StepKeeps(s, w, run[0]);
      RunKeeps(s, Apply(s, w, run[0]), run[1..]);
    }
  }

  /** The invariant holds in every reachable state of every interleaving. */
  lemma ReachableInv(s: Setup, w: World)
    requires Reachable(s, w)
    ensures Inv(s, w)
  {
    hide Inv;
    var before, ops, w0, run :| Leads(s, before, ops, w0, run, w);
    StartKeeps(s, before, ops, w0);
    RunKeeps(s, w0, run);
  }
}
