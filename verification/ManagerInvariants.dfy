/** What every critical section of the request manager keeps. */
module ManagerInvariants {
  import opened Common
  import opened Transactions
  import opened CanonicalKeys
  import opened Manager

  /** Removed transactions are terminal, live ones are not, and there are never too many. */
  ghost predicate StatesAgree(cfg: Config, live: map<Id, Tx>, retired: map<Id, Tx>) {
    && live.Keys !! retired.Keys
    && (forall id :: id in live ==> !Terminal(live[id].state))
    && (forall id :: id in retired ==> Terminal(retired[id].state))
    && (live == map[] || |live| <= cfg.maxConcurrent)
  }

  /** activeCloudRequests is exactly the inverse of the non-empty keys of the live transactions. */
  ghost predicate TablesAgree(live: map<Id, Tx>, active: map<Key, Id>) {
    && (forall k :: k in active ==> k.Key? && active[k] in live && live[active[k]].key == k)
    && (forall id :: id in live && live[id].key.Key? ==> live[id].key in active && active[live[id].key] == id)
    && (forall id :: id in live && live[id].respond ==> live[id].key.Key?)
  }

  /** A buffered reply belongs to a live transaction that is pre-flight or in handoff. */
  ghost predicate BuffersAgree(live: map<Id, Tx>, pending: map<Id, Reply>) {
    forall id :: id in pending ==>
      && id in live
      && (PreFlight(live[id].state) || live[id].handoff)
      && Terminal(pending[id].state)
      && (pending[id].state.TimedOut? ==> live[id].state.InFlight?)
  }

  /** Mutex, holder and owner phase say the same thing, and the holder is what the phase says it is. */
  ghost predicate LockAgrees(live: map<Id, Tx>, locked: bool, holder: Option<Id>, owner: Owner) {
    && (locked <==> holder.Some?)
    && (locked <==> !owner.LockNone?)
    && (owner.OwnedByRPC? ==> holder.value in live && !live[holder.value].handoff)
    && (owner.TransferPending? ==>
          holder.value in live && live[holder.value].handoff && live[holder.value].command == "upgrade")
    && (owner.OwnedByOperation? ==> holder.value !in live)
  }

  /** An in-flight transaction has a deadline and, outside a handoff, an armed response timer. */
  ghost predicate TimersAgree(live: map<Id, Tx>) {
    forall id :: id in live ==> TimerAgrees(live[id])
  }

  ghost predicate TimerAgrees(tx: Tx) {
    && (tx.deadline.Some? <==> tx.state.InFlight?)
    && (tx.timedOnce ==> tx.state.InFlight?)
    && (tx.timer ==> tx.timedOnce)
    && (tx.state.InFlight? && !tx.handoff ==> tx.timer)
    && (tx.handoff ==> tx.state.InFlight? || tx.state.PendingPublish?)
  }

  /** No key is both active and freshly cached, and the empty key is never cached. */
  ghost predicate CacheAgrees(now: Time, active: map<Key, Id>, cache: map<Key, CacheEntry>) {
    && NoKey !in cache
    && forall k :: k in active ==> CacheGet(cache, k, now) == None
  }

  /** Every response pushed for a transaction is its own, once, and only if a response was asked for. */
  ghost predicate OutboxAgrees(retired: map<Id, Tx>, pushed: seq<Push>) {
    && (forall i, j :: 0 <= i < j < |pushed| ==> pushed[i].origin != pushed[j].origin)
    && (forall i :: 0 <= i < |pushed| && pushed[i].origin.FromTransaction? ==>
          var id := pushed[i].origin.id;
          && id in retired
          && retired[id].respond
          && retired[id].session == pushed[i].session
          && retired[id].payload == Some(pushed[i].payload))
  }

  ghost predicate MemInv(cfg: Config, now: Time, m: Mem) {
    && StatesAgree(cfg, m.live, m.retired)
    && TablesAgree(m.live, m.active)
    && BuffersAgree(m.live, m.pending)
    && LockAgrees(m.live, m.locked, m.holder, m.owner)
    && TimersAgree(m.live)
    && CacheAgrees(now, m.active, m.cache)
    && OutboxAgrees(m.retired, m.pushed)
  }

  /** `tx` is the transaction in `m` with id `id`, up to state, handoff and timers. */
  ghost predicate SameRequest(m: Mem, id: Id, tx: Tx) {
    && id in m.live
    && tx.key == m.live[id].key
    && tx.respond == m.live[id].respond
    && tx.session == m.live[id].session
    && tx.command == m.live[id].command
  }

  lemma RetireKeepsStates(cfg: Config, live: map<Id, Tx>, retired: map<Id, Tx>, id: Id, tx: Tx)
    requires StatesAgree(cfg, live, retired) && id in live && Terminal(tx.state)
    ensures StatesAgree(cfg, live - {id}, retired[id := tx])
  {
    var n := live - {id};
    assert n.Keys == live.Keys - {id};
    assert |n| == |n.Keys| && |live| == |live.Keys|;
  }

  lemma RetireKeepsTables(live: map<Id, Tx>, active: map<Key, Id>, id: Id)
    requires TablesAgree(live, active) && id in live
    ensures TablesAgree(live - {id}, if live[id].key.NoKey? then active else active - {live[id].key})
  {
  }

  lemma RetireKeepsOutbox(cfg: Config, now: Time, m: Mem, id: Id, tx: Tx, final: TxState, payload: Option<Bytes>)
    requires OutboxAgrees(m.retired, m.pushed) && id !in m.retired
    ensures var n := Retire(cfg, now, m, id, tx, final, payload); OutboxAgrees(n.retired, n.pushed)
  {
  }

  lemma RetireKeepsCache(cfg: Config, now: Time, m: Mem, id: Id, tx: Tx, final: TxState, payload: Option<Bytes>)
    requires CacheAgrees(now, m.active, m.cache) && (tx.respond ==> tx.key.Key?)
    ensures var n := Retire(cfg, now, m, id, tx, final, payload); CacheAgrees(now, n.active, n.cache)
  {
  }

  lemma RetireKeepsRest(cfg: Config, now: Time, m: Mem, id: Id, tx: Tx, final: TxState, payload: Option<Bytes>)
    requires BuffersAgree(m.live, m.pending) && LockAgrees(m.live, m.locked, m.holder, m.owner) && TimersAgree(m.live)
    ensures var n := Retire(cfg, now, m, id, tx, final, payload);
            && BuffersAgree(n.live, n.pending)
            && LockAgrees(n.live, n.locked, n.holder, n.owner)
            && TimersAgree(n.live)
  {
  }

  lemma RetireKeeps(cfg: Config, now: Time, m: Mem, id: Id, tx: Tx, final: TxState, payload: Option<Bytes>)
    requires MemInv(cfg, now, m) && SameRequest(m, id, tx) && Terminal(final)
    ensures MemInv(cfg, now, Retire(cfg, now, m, id, tx, final, payload))
  {
    RetireKeepsStates(cfg, m.live, m.retired, id, tx.(state := final, payload := payload, timer := false));
    RetireKeepsTables(m.live, m.active, id);
    RetireKeepsOutbox(cfg, now, m, id, tx, final, payload);
    RetireKeepsCache(cfg, now, m, id, tx, final, payload);
    RetireKeepsRest(cfg, now, m, id, tx, final, payload);
  }

  /** Finishing an updated copy of a transaction forgets what was updated. */
  lemma DeliverRetires(cfg: Config, now: Time, m: Mem, id: Id, tx: Tx, reply: Reply)
    requires id in m.live && Terminal(reply.state) && ValidateTransition(tx.state, reply.state).None?
    ensures Deliver(cfg, now, Update(m, id, tx), id, reply) ==
            (Retire(cfg, now, m, id, tx, reply.state, reply.payload), None)
  {
    var n := Update(m, id, tx).(pending := m.pending - {id});
    assert n.live - {id} == m.live - {id};
    assert n.pending - {id} == m.pending - {id};
  }

  lemma TerminalKeeps(cfg: Config, now: Time, m: Mem, id: Id, final: TxState, payload: Option<Bytes>)
    requires MemInv(cfg, now, m)
    ensures MemInv(cfg, now, TerminalTransition(cfg, now, m, id, final, payload).0)
  {
    if Terminal(final) && id in m.live {
      RetireKeeps(cfg, now, m, id, m.live[id], final, payload);
    }
  }

  /** A change to one transaction that keeps its request and respects the lifecycle rules. */
  ghost predicate LegalUpdate(m: Mem, id: Id, tx: Tx) {
    && SameRequest(m, id, tx)
    && !Terminal(tx.state)
    && TimerAgrees(tx)
    && (id in m.pending ==>
          && (PreFlight(tx.state) || tx.handoff)
          && (m.pending[id].state.TimedOut? ==> tx.state.InFlight?))
  }

  lemma UpdateKeeps(cfg: Config, now: Time, m: Mem, id: Id, tx: Tx, owner: Owner)
    requires MemInv(cfg, now, m) && LegalUpdate(m, id, tx)
    requires m.holder == Some(id) ==> owner == if tx.handoff then TransferPending else OwnedByRPC
    requires m.holder == Some(id) && tx.handoff ==> tx.command == "upgrade"
    requires m.holder != Some(id) ==> owner == m.owner
    ensures MemInv(cfg, now, Update(m, id, tx).(owner := owner))
  {
    UpdateKeepsStates(cfg, m.live, m.retired, id, tx);
    UpdateKeepsTables(m, id, tx);
    UpdateKeepsRest(m, id, tx, owner);
  }

  lemma UpdateKeepsStates(cfg: Config, live: map<Id, Tx>, retired: map<Id, Tx>, id: Id, tx: Tx)
    requires StatesAgree(cfg, live, retired) && id in live && !Terminal(tx.state)
    ensures StatesAgree(cfg, live[id := tx], retired)
  {
    var n := live[id := tx];
    assert n.Keys == live.Keys;
    assert |n| == |n.Keys| && |live| == |live.Keys|;
  }

  lemma UpdateKeepsTables(m: Mem, id: Id, tx: Tx)
    requires TablesAgree(m.live, m.active) && SameRequest(m, id, tx)
    ensures TablesAgree(m.live[id := tx], m.active)
  {
  }

  lemma UpdateKeepsRest(m: Mem, id: Id, tx: Tx, owner: Owner)
    requires BuffersAgree(m.live, m.pending) && LockAgrees(m.live, m.locked, m.holder, m.owner) && TimersAgree(m.live)
    requires LegalUpdate(m, id, tx)
    requires m.holder == Some(id) ==> owner == if tx.handoff then TransferPending else OwnedByRPC
    requires m.holder == Some(id) && tx.handoff ==> tx.command == "upgrade"
    requires m.holder != Some(id) ==> owner == m.owner
    ensures BuffersAgree(m.live[id := tx], m.pending)
    ensures LockAgrees(m.live[id := tx], m.locked, m.holder, owner)
    ensures TimersAgree(m.live[id := tx])
  {
  }

  lemma BufferKeeps(cfg: Config, now: Time, m: Mem, id: Id, reply: Reply)
    requires MemInv(cfg, now, m) && id in m.live && id !in m.pending
    requires PreFlight(m.live[id].state) || m.live[id].handoff
    requires Terminal(reply.state) && (reply.state.TimedOut? ==> m.live[id].state.InFlight?)
    ensures MemInv(cfg, now, m.(pending := m.pending[id := reply]))
  {
  }

  lemma CreateKeeps(cfg: Config, now: Time, m: Mem, id: Id, session: string, cloudId: RawId,
                    respond: bool, command: string, timeout: Time, stateChanging: bool)
    requires MemInv(cfg, now, m)
    requires id !in m.live && id !in m.retired && m.holder != Some(id)
    ensures MemInv(cfg, now, CreateTransaction(cfg, now, m, id, session, cloudId, respond, command, timeout,
              stateChanging).0)
  {
    var (n, r) := CreateTransaction(cfg, now, m, id, session, cloudId, respond, command, timeout, stateChanging);
    if r.Ok? {
      CreateKeepsStates(cfg, m.live, m.retired, id, n.live[id]);
      CreateKeepsTables(m.live, m.active, id, n.live[id]);
      CreateKeepsRest(now, m, n, id);
    }
  }

  lemma CreateKeepsStates(cfg: Config, live: map<Id, Tx>, retired: map<Id, Tx>, id: Id, tx: Tx)
    requires StatesAgree(cfg, live, retired) && id !in live && id !in retired
    requires !Terminal(tx.state) && |live| < cfg.maxConcurrent
    ensures StatesAgree(cfg, live[id := tx], retired)
  {
    var n := live[id := tx];
    assert n.Keys == live.Keys + {id};
    assert |n| == |n.Keys| && |live| == |live.Keys|;
  }

  lemma CreateKeepsTables(live: map<Id, Tx>, active: map<Key, Id>, id: Id, tx: Tx)
    requires TablesAgree(live, active) && id !in live && tx.key !in active && (tx.respond ==> tx.key.Key?)
    ensures TablesAgree(live[id := tx], if tx.key.NoKey? then active else active[tx.key := id])
  {
  }

  lemma CreateKeepsRest(now: Time, m: Mem, n: Mem, id: Id)
    requires BuffersAgree(m.live, m.pending) && LockAgrees(m.live, m.locked, m.holder, m.owner) && TimersAgree(m.live)
    requires CacheAgrees(now, m.active, m.cache)
    requires id !in m.live && m.holder != Some(id) && id in n.live && n.live == m.live[id := n.live[id]]
    requires TimerAgrees(n.live[id]) && !n.live[id].handoff && CacheGet(m.cache, n.live[id].key, now) == None
    requires n.active == if n.live[id].key.NoKey? then m.active else m.active[n.live[id].key := id]
    requires n.pending == m.pending && n.cache == m.cache
    requires || (n.locked == m.locked && n.holder == m.holder && n.owner == m.owner)
             || (n.locked && n.holder == Some(id) && n.owner.OwnedByRPC?)
    ensures BuffersAgree(n.live, n.pending) && TimersAgree(n.live) && CacheAgrees(now, n.active, n.cache)
    ensures LockAgrees(n.live, n.locked, n.holder, n.owner)
  {
  }

  lemma AdvanceKeeps(cfg: Config, now: Time, m: Mem, id: Id, to: TxState)
    requires MemInv(cfg, now, m) && (to.PreparingDispatch? || to.PendingPublish?)
    ensures MemInv(cfg, now, Advance(m, id, to).0)
  {
    if Advance(m, id, to).1.None? {
      UpdateKeeps(cfg, now, m, id, m.live[id].(state := to), m.owner);
    }
  }

  /** What MarkInFlight does to a published transaction: deliver its buffered reply, or arm its timer. */
  lemma MarkInFlightForm(cfg: Config, now: Time, m: Mem, id: Id)
    requires BuffersAgree(m.live, m.pending) && id in m.live && m.live[id].state.PendingPublish?
    ensures var tx := m.live[id].(state := InFlight);
            MarkInFlight(cfg, now, m, id) ==
            if id in m.pending then (Retire(cfg, now, m, id, tx, m.pending[id].state, m.pending[id].payload), None)
            else (Update(m, id, tx.(deadline := Some(now + tx.timeout), timer := true, timedOnce := true)), None)
  {
    var tx := m.live[id].(state := InFlight);
    if id in m.pending {
      DeliverRetires(cfg, now, m, id, tx, m.pending[id]);
    } else {
      var tx' := tx.(deadline := Some(now + tx.timeout), timer := true, timedOnce := true);
      assert m.live[id := tx][id := tx'] == m.live[id := tx'];
    }
  }

  lemma MarkInFlightIdle(cfg: Config, now: Time, m: Mem, id: Id)
    requires id in m.live ==> !m.live[id].state.PendingPublish?
    ensures MarkInFlight(cfg, now, m, id).0 == m && MarkInFlight(cfg, now, m, id).1.Some?
  {
  }

  /** Transaction `tx` in flight with its timer armed. */
  function Armed(tx: Tx, now: Time): Tx {
    tx.(state := InFlight, deadline := Some(now + tx.timeout), timer := true, timedOnce := true)
  }

  lemma ArmedIsLegal(m: Mem, id: Id, now: Time)
    requires TimersAgree(m.live) && id in m.live && m.live[id].state.PendingPublish? && id !in m.pending
    ensures LegalUpdate(m, id, Armed(m.live[id], now))
  {
    assert TimerAgrees(m.live[id]);
  }

  /** The owner phase says whether the holding transaction is in a handoff. */
  lemma OwnerOf(m: Mem, id: Id)
    requires LockAgrees(m.live, m.locked, m.holder, m.owner) && id in m.live && m.holder == Some(id)
    ensures m.owner == if m.live[id].handoff then TransferPending else OwnedByRPC
    ensures m.live[id].handoff ==> m.live[id].command == "upgrade"
  {
  }

  lemma ArmKeeps(cfg: Config, now: Time, m: Mem, id: Id)
    requires MemInv(cfg, now, m) && id in m.live && m.live[id].state.PendingPublish? && id !in m.pending
    ensures MemInv(cfg, now, Update(m, id, Armed(m.live[id], now)))
  {
    hide StatesAgree, TablesAgree, BuffersAgree, LockAgrees, TimersAgree, CacheAgrees, OutboxAgrees, LegalUpdate;
    ArmedIsLegal(m, id, now);
    if m.holder == Some(id) { OwnerOf(m, id); }
    UpdateKeeps(cfg, now, m, id, Armed(m.live[id], now), m.owner);
  }

  lemma MarkInFlightKeeps(cfg: Config, now: Time, m: Mem, id: Id)
    requires MemInv(cfg, now, m)
    ensures MemInv(cfg, now, MarkInFlight(cfg, now, m, id).0)
  {
    hide MarkInFlight, Retire, StatesAgree, TablesAgree, LockAgrees, TimersAgree, CacheAgrees, OutboxAgrees;
    if id in m.live && m.live[id].state.PendingPublish? {
      MarkInFlightForm(cfg, now, m, id);
      if id in m.pending {
        RetireKeeps(cfg, now, m, id, m.live[id].(state := InFlight), m.pending[id].state, m.pending[id].payload);
      } else {
        ArmKeeps(cfg, now, m, id);
      }
    } else {
      MarkInFlightIdle(cfg, now, m, id);
    }
  }

  lemma CompleteKeeps(cfg: Config, now: Time, m: Mem, id: Id, response: Option<Bytes>)
    requires MemInv(cfg, now, m)
    ensures MemInv(cfg, now, Complete(cfg, now, m, id, response).0)
  {
    if id in m.live && (PreFlight(m.live[id].state) || m.live[id].handoff) {
      if id !in m.pending {
        BufferKeeps(cfg, now, m, id, Reply(response, Completed));
      }
    } else {
      TerminalKeeps(cfg, now, m, id, Completed, response);
    }
  }

  /** Discarding an undeliverable reply changes nothing about how a transaction then fails. */
  lemma DiscardRetires(cfg: Config, now: Time, m: Mem, id: Id, final: TxState, payload: Option<Bytes>)
    requires id in m.live && Terminal(final) && ValidateTransition(m.live[id].state, final).None?
    ensures TerminalTransition(cfg, now, m.(pending := m.pending - {id}), id, final, payload) ==
            (Retire(cfg, now, m, id, m.live[id], final, payload), None)
  {
    assert m.pending - {id} - {id} == m.pending - {id};
  }

  /** The four outcomes of Fail and Timeout on a live transaction. */
  lemma ConcludeForm(cfg: Config, now: Time, m: Mem, id: Id, final: TxState, payload: Option<Bytes>)
    requires BuffersAgree(m.live, m.pending) && id in m.live && (final.Failed? || final.TimedOut?)
    requires !Terminal(m.live[id].state) && (final.TimedOut? ==> m.live[id].state.InFlight?)
    ensures var tx := m.live[id];
            Conclude(cfg, now, m, id, final, payload) ==
            if tx.handoff && id in m.pending then (m, Some(AlreadyTerminal))
            else if tx.handoff then (m.(pending := m.pending[id := Reply(payload, final)]), None)
            else if id in m.pending && tx.state.PendingPublish? then
              (Retire(cfg, now, m, id, tx.(state := InFlight), m.pending[id].state, m.pending[id].payload),
                  Some(AlreadyTerminal))
            else (Retire(cfg, now, m, id, tx, final, payload), None)
  {
    var tx := m.live[id];
    if !tx.handoff && id in m.pending {
      if tx.state.PendingPublish? {
        DeliverRetires(cfg, now, m, id, tx.(state := InFlight), m.pending[id]);
      } else {
        DiscardRetires(cfg, now, m, id, final, payload);
      }
    }
  }

  lemma ConcludeKeeps(cfg: Config, now: Time, m: Mem, id: Id, final: TxState, payload: Option<Bytes>)
    requires MemInv(cfg, now, m) && (final.Failed? || final.TimedOut?)
    requires final.TimedOut? && id in m.live ==> m.live[id].state.InFlight?
    ensures MemInv(cfg, now, Conclude(cfg, now, m, id, final, payload).0)
  {
    if id in m.live {
      ConcludeForm(cfg, now, m, id, final, payload);
      var tx := m.live[id];
      if tx.handoff {
        if id !in m.pending {
          BufferKeeps(cfg, now, m, id, Reply(payload, final));
        }
      } else if id in m.pending && tx.state.PendingPublish? {
        RetireKeeps(cfg, now, m, id, tx.(state := InFlight), m.pending[id].state, m.pending[id].payload);
      } else {
        RetireKeeps(cfg, now, m, id, tx, final, payload);
      }
    }
  }

  lemma PendingIsTerminal(m: Mem, id: Id)
    requires BuffersAgree(m.live, m.pending)
    ensures id in m.pending ==>
              id in m.live && Terminal(m.pending[id].state) &&
                  (m.pending[id].state.TimedOut? ==> m.live[id].state.InFlight?)
  {
  }

  lemma DispatchTimeoutForm(cfg: Config, now: Time, m: Mem, id: Id)
    requires BuffersAgree(m.live, m.pending) && id in m.live && PreFlight(m.live[id].state)
    ensures var tx := m.live[id];
            DispatchTimeoutFail(cfg, now, m, id) ==
            if id in m.pending && tx.state.PendingPublish? then
              Retire(cfg, now, m, id, tx.(state := InFlight), m.pending[id].state, m.pending[id].payload)
            else Retire(cfg, now, m, id, tx, Failed, None)
  {
    hide Retire, Deliver, BuffersAgree;
    PendingIsTerminal(m, id);
    if id in m.pending {
      if m.live[id].state.PendingPublish? {
        DeliverRetires(cfg, now, m, id, m.live[id].(state := InFlight), m.pending[id]);
      } else {
        DiscardRetires(cfg, now, m, id, Failed, None);
      }
    }
  }

  lemma DispatchTimeoutKeeps(cfg: Config, now: Time, m: Mem, id: Id)
    requires MemInv(cfg, now, m)
    ensures MemInv(cfg, now, DispatchTimeoutFail(cfg, now, m, id))
  {
    if id in m.live && PreFlight(m.live[id].state) {
      DispatchTimeoutForm(cfg, now, m, id);
      var tx := m.live[id];
      if id in m.pending && tx.state.PendingPublish? {
        RetireKeeps(cfg, now, m, id, tx.(state := InFlight), m.pending[id].state, m.pending[id].payload);
      } else {
        RetireKeeps(cfg, now, m, id, tx, Failed, None);
      }
    }
  }

  lemma BeginHandoffKeeps(cfg: Config, now: Time, m: Mem, id: Id)
    requires MemInv(cfg, now, m)
    ensures MemInv(cfg, now, BeginHandoff(m, id).0)
  {
    if BeginHandoff(m, id).1.None? {
      UpdateKeeps(cfg, now, m, id, m.live[id].(handoff := true, timer := false), TransferPending);
    }
  }

  /** Finishing a transaction after taking its lock back is finishing it. */
  lemma ReclaimRetires(cfg: Config, now: Time, m: Mem, id: Id, final: TxState, payload: Option<Bytes>)
    requires id in m.live
    ensures Retire(cfg, now, Reclaim(m, id), id, m.live[id].(handoff := false), final, payload) ==
            Retire(cfg, now, m, id, m.live[id].(handoff := false), final, payload)
  {
    assert Reclaim(m, id).live - {id} == m.live - {id};
  }

  lemma ReclaimForm(m: Mem, id: Id, tx: Tx)
    requires id in m.live
    ensures var owner := if m.holder == Some(id) then OwnedByRPC else m.owner;
            && Update(Reclaim(m, id), id, tx) == Update(m, id, tx).(owner := owner)
            && Reclaim(m, id) == Update(m, id, m.live[id].(handoff := false)).(owner := owner)
  {
    assert Reclaim(m, id).live[id := tx] == m.live[id := tx];
  }

  /** After a failed Save: deliver the buffered reply, stay unpublished, re-arm the timer, or time out. */
  lemma ResumeFailedForm(cfg: Config, now: Time, m: Mem, id: Id)
    requires BuffersAgree(m.live, m.pending) && TimersAgree(m.live) && id in m.live && m.live[id].handoff
    ensures var tx := m.live[id].(handoff := false);
            && ResumeFailed(cfg, now, m, id).1 == Returned(
                 if id in m.pending then None
                 else if tx.state.InFlight? && now < tx.deadline.value then Some(PersistFailed)
                 else Some(AlreadyTerminal))
            && ResumeFailed(cfg, now, m, id).0 ==
               if id in m.pending then Retire(cfg, now, m, id, tx, m.pending[id].state, m.pending[id].payload)
               else if tx.state.PendingPublish? then Reclaim(m, id)
               else if now < tx.deadline.value then Update(Reclaim(m, id), id, tx.(timer := true, timedOnce := true))
               else Retire(cfg, now, m, id, tx, TimedOut, TimeoutResponse(cfg, tx))
  {
    hide Retire;
    var tx := m.live[id].(handoff := false);
    var o := Reclaim(m, id);
    assert o.live[id] == tx && o.pending == m.pending;
    if id in m.pending {
      DiscardRetires(cfg, now, o, id, m.pending[id].state, m.pending[id].payload);
      ReclaimRetires(cfg, now, m, id, m.pending[id].state, m.pending[id].payload);
    } else {
      ReclaimRetires(cfg, now, m, id, TimedOut, TimeoutResponse(cfg, tx));
    }
  }

  lemma ReclaimKeeps(cfg: Config, now: Time, m: Mem, id: Id, tx: Tx)
    requires MemInv(cfg, now, m) && id in m.live && id !in m.pending
    requires SameRequest(m, id, tx) && !Terminal(tx.state) && TimerAgrees(tx) && !tx.handoff
    ensures MemInv(cfg, now, Update(Reclaim(m, id), id, tx))
    ensures tx == m.live[id].(handoff := false) ==> MemInv(cfg, now, Reclaim(m, id))
  {
    ReclaimForm(m, id, tx);
    UpdateKeeps(cfg, now, m, id, tx, if m.holder == Some(id) then OwnedByRPC else m.owner);
  }

  lemma ResumeFailedKeepsLive(cfg: Config, now: Time, m: Mem, id: Id)
    requires MemInv(cfg, now, m) && id in m.live && m.live[id].handoff
    ensures MemInv(cfg, now, ResumeFailed(cfg, now, m, id).0)
  {
    ResumeFailedForm(cfg, now, m, id);
    var tx := m.live[id].(handoff := false);
    if id in m.pending {
      RetireKeeps(cfg, now, m, id, tx, m.pending[id].state, m.pending[id].payload);
    } else if tx.state.PendingPublish? {
      ReclaimKeeps(cfg, now, m, id, tx);
    } else if now < tx.deadline.value {
      ReclaimKeeps(cfg, now, m, id, tx.(timer := true, timedOnce := true));
    } else {
      RetireKeeps(cfg, now, m, id, tx, TimedOut, TimeoutResponse(cfg, tx));
    }
  }

  /** The transaction was already finished through MarkInFlight: nothing is left to do. */
  lemma ResumeFailedOnRetired(cfg: Config, now: Time, m: Mem, id: Id)
    requires id !in m.live && m.holder != Some(id) && id !in m.pending
    ensures ResumeFailed(cfg, now, m, id).0 == m && ResumeFailed(cfg, now, m, id).1.Returned?
  {
  }

  /** A buffered reply of a pending-publish or in-flight transaction can be delivered. */
  lemma DeliverForm(cfg: Config, now: Time, m: Mem, id: Id)
    requires BuffersAgree(m.live, m.pending) && id in m.pending
    requires m.live[id].state.InFlight? || m.live[id].state.PendingPublish?
    ensures Deliver(cfg, now, m, id, m.pending[id]) ==
            (Retire(cfg, now, m, id, m.live[id], m.pending[id].state, m.pending[id].payload), None)
  {
    DiscardRetires(cfg, now, m, id, m.pending[id].state, m.pending[id].payload);
  }

  lemma DeliverKeeps(cfg: Config, now: Time, m: Mem, id: Id)
    requires MemInv(cfg, now, m) && id in m.pending
    requires m.live[id].state.InFlight? || m.live[id].state.PendingPublish?
    ensures MemInv(cfg, now, Deliver(cfg, now, m, id, m.pending[id]).0)
  {
    DeliverForm(cfg, now, m, id);
    RetireKeeps(cfg, now, m, id, m.live[id], m.pending[id].state, m.pending[id].payload);
  }

  /** Give the lock of transaction `id` to operation `op`. */
  ghost function Transferred(m: Mem, id: Id, op: Id): Mem {
    if m.holder == Some(id) then m.(holder := Some(op), owner := OwnedByOperation) else m
  }

  lemma ResumeSavedKeeps(cfg: Config, now: Time, m: Mem, id: Id, op: Id, response: Option<Bytes>)
    requires MemInv(cfg, now, m) && op !in m.live
    requires id in m.live ==> m.live[id].handoff
    ensures MemInv(cfg, now, ResumeSaved(cfg, now, m, id, op, response).0)
  {
    var n := Transferred(m, id, op);
    assert MemInv(cfg, now, n);
    if id in n.pending {
      if n.holder != Some(op) {
        DeliverKeeps(cfg, now, n, id);
      }
    } else {
      TerminalKeeps(cfg, now, n, id, Completed, response);
    }
  }

  lemma ReleaseKeeps(cfg: Config, now: Time, m: Mem, op: Id)
    requires MemInv(cfg, now, m)
    ensures MemInv(cfg, now, BeginRelease(m, op).0) && MemInv(cfg, now, EndRelease(m, op))
  {
    assert MemInv(cfg, now, m.(releasing := Some(op), locked := false, holder := None, owner := LockNone));
    assert MemInv(cfg, now, m.(releasing := None));
  }

  lemma CacheSweepKeeps(cfg: Config, now: Time, m: Mem)
    requires MemInv(cfg, now, m)
    ensures MemInv(cfg, now, m.(cache := CacheSweep(m.cache, now)))
  {
  }
}
