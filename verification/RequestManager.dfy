/**
 * The request manager as the mutable object it is: pkg/reqmgr/manager.go and pkg/reqmgr/cache.go.
 * Every method is one stretch of code under m.mu, proved to do to the object's memory what the
 * matching function of module Manager says, and to keep the invariant of module ManagerInvariants.
 */
module RequestManager {
  import opened Common
  import opened Transactions
  import opened CanonicalKeys
  import opened Manager
  import opened ManagerInvariants
  import opened OperationStore
  import opened FrameHandler
  import DiskStore
  import World
  import OperationSweep

  class TransactionCache {
    var items: map<Key, CacheEntry>

    constructor ()
      ensures items == map[]
    {
      items := map[];
    }

    /** Until it expires every lookup of the key finds the payload, afterwards none; other keys are not affected. */
    method Set(key: Key, payload: Bytes, now: Time, ttl: nat)
      modifies this
      ensures forall t: Time :: CacheGet(items, key, t) == if t < now + ttl then Some(payload) else None
      ensures forall k, t: Time :: k != key ==> CacheGet(items, k, t) == CacheGet(old(items), k, t)
      ensures items == CacheSet(old(items), key, payload, now, ttl)
    {
      items := items[key := CacheEntry(payload, now + ttl)];
    }

    /** A payload comes back exactly while the key's entry is fresh. */
    method Get(key: Key, now: Time) returns (r: Option<Bytes>)
      ensures r.Some? <==> key in items && now < items[key].expiresAt
      ensures r.Some? ==> items[key].payload == r.value
      ensures r == CacheGet(items, key, now)
    {
      if key !in items { return None; }
      if now >= items[key].expiresAt { return None; }
      return Some(items[key].payload);
    }

    /** Delete what expired; no lookup, now or later, can tell. */
    method SweepCache(now: Time)
      modifies this
      ensures items == CacheSweep(old(items), now)
      ensures forall key, later: Time :: now <= later ==>
                CacheGet(items, key, later) == CacheGet(old(items), key, later)
    {
      var todo := items.Keys;
      while todo != {}
        invariant todo <= items.Keys <= old(items).Keys
        invariant forall key :: key in items ==> items[key] == old(items)[key]
        invariant forall key :: key in old(items) && key !in todo ==>
                    (key in items <==> now < old(items)[key].expiresAt)
        decreases todo
      {
        var key :| key in todo;
        todo := todo - {key};
        if now >= items[key].expiresAt {
          items := items - {key};
        }
      }
    }
  }

  class RequestManager {
    const cfg: Config
    const cache: TransactionCache
    const store: DiskStore.DiskOperationStore
    var transactions: map<Id, Tx>
    var retired: map<Id, Tx>
    var activeCloudRequests: map<Key, Id>
    var stateLocked: bool
    var activeStateTx: Option<Id>
    var activeStateOwner: Owner
    var releasingOperation: Option<Id>
    var pendingReplies: map<Id, Reply>
    var pushed: seq<Push>

    constructor (cfg: Config, cache: TransactionCache, store: DiskStore.DiskOperationStore)
      ensures this.cfg == cfg && this.cache == cache && this.store == store && View() == Blank().(cache := cache.items)
    {
      this.cfg := cfg;
      this.cache := cache;
      this.store := store;
      transactions, retired, activeCloudRequests, pendingReplies, pushed := map[], map[], map[], map[], [];
      stateLocked, activeStateTx, activeStateOwner, releasingOperation := false, None, LockNone, None;
    }

    ghost function View(): Mem
      reads this, cache
    {
      Mem(transactions, retired, activeCloudRequests, stateLocked, activeStateTx, activeStateOwner,
          releasingOperation, cache.items, pendingReplies, pushed)
    }

    ghost predicate Valid(now: Time)
      reads this, cache
    {
      MemInv(cfg, now, View())
    }

    /** stateLock.Unlock, a run-time panic on a free mutex. */
    method Unlock()
      requires stateLocked
      modifies this`stateLocked
      ensures !stateLocked
    {
      stateLocked := false;
    }

    method CreateTransaction(now: Time, rpcId: Id, session: string, cloudId: RawId, respond: bool,
                             command: string, timeout: Time, stateChanging: bool) returns (r: Result<Id, Error>)
      requires Valid(now) && rpcId !in transactions && rpcId !in retired && activeStateTx != Some(rpcId)
      modifies this
      ensures View() == Manager.CreateTransaction(cfg, now, old(View()), rpcId, session, cloudId, respond, command,
                timeout, stateChanging).0 &&
                r == Manager.CreateTransaction(cfg, now, old(View()), rpcId, session, cloudId, respond, command,
                timeout, stateChanging).1
      ensures Valid(now)
    {
      hide MemInv, Manager.CreateTransaction;
      CreateKeeps(cfg, now, View(), rpcId, session, cloudId, respond, command, timeout, stateChanging);
      var refused := Refusal(now, rpcId, session, cloudId, respond, command, timeout, stateChanging);
      if refused.Some? { return Err(refused.value); }
      Insert(now, rpcId, session, cloudId, respond, command, timeout, stateChanging);
      return Ok(rpcId);
    }

    /** The checks of CreateTransaction, in order. */
    method Refusal(now: Time, rpcId: Id, session: string, cloudId: RawId, respond: bool,
                   command: string, timeout: Time, stateChanging: bool) returns (e: Option<Error>)
      ensures var r := Manager.CreateTransaction(cfg, now, View(), rpcId, session, cloudId, respond, command,
                timeout, stateChanging);
              r.1 == (if e.Some? then Err(e.value) else Ok(rpcId)) && (e.Some? ==> r.0 == View())
    {
      if IsNotification(cloudId) && respond { return Some(Rejected); }
      if command == "upgrade" && !stateChanging { return Some(Rejected); }
      var key := RequestKey(session, cloudId);
      if key.None? { return Some(Rejected); }
      var cached := cache.Get(key.value, now);
      if cached.Some? { return Some(CachedResponse(cached.value)); }
      if key.value in activeCloudRequests { return Some(DuplicateRequest); }
      if |transactions| >= cfg.maxConcurrent { return Some(CapacityExceeded); }
      if stateChanging {
        if !respond || IsNotification(cloudId) { return Some(Rejected); }
        if stateLocked { return Some(StateLockBusy); }
      }
      return None;
    }

    method Insert(now: Time, rpcId: Id, session: string, cloudId: RawId, respond: bool,
                  command: string, timeout: Time, stateChanging: bool)
      requires Manager.CreateTransaction(cfg, now, View(), rpcId, session, cloudId, respond, command, timeout,
                 stateChanging).1.Ok?
      modifies this
      ensures View() == Manager.CreateTransaction(cfg, now, old(View()), rpcId, session, cloudId, respond, command,
                timeout, stateChanging).0
    {
      var key := RequestKey(session, cloudId).value;
      if stateChanging {
        stateLocked := true;
        activeStateTx := Some(rpcId);
        activeStateOwner := OwnedByRPC;
      }
      if !key.NoKey? {
        activeCloudRequests := activeCloudRequests[key := rpcId];
      }
      transactions := transactions[rpcId :=
          Tx(session, cloudId, key, respond, command, Created, None, false, timeout, None, false, false)];
    }

    /** The one exit. The lock is only released by its holder, so a holder must really hold it. */
    method TerminalTransition(now: Time, id: Id, final: TxState, payload: Option<Bytes>) returns (err: Option<Error>)
      requires activeStateTx == Some(id) ==> stateLocked
      modifies this, cache
      ensures View() == Manager.TerminalTransition(cfg, now, old(View()), id, final, payload).0 &&
                err == Manager.TerminalTransition(cfg, now, old(View()), id, final, payload).1
    {
      hide Retire;
      if !Terminal(final) { return Some(InvalidStateTransition); }
      if id !in transactions { return Some(TransactionNotFound); }
      var tx := transactions[id];
      var bad := ValidateTransition(tx.state, final);
      if bad.Some? { return bad; }
      Forget(now, id, final, payload);
      return None;
    }

    /** The transaction's last state: record it, cache it, take it out of the tables, unlock, respond. */
    method Forget(now: Time, id: Id, final: TxState, payload: Option<Bytes>)
      requires id in transactions && (activeStateTx == Some(id) ==> stateLocked)
      modifies this, cache
      ensures View() == Retire(cfg, now, old(View()), id, old(transactions[id]), final, payload)
    {
      hide CacheSet, TTLForMethod;
      var tx := transactions[id];
      Remember(now, tx, final, payload);
      Untrack(id, tx.(state := final, payload := payload, timer := false));
      ReleaseIfHeld(id);
      Respond(id, tx.respond, tx.session, payload);
    }

    method Remember(now: Time, tx: Tx, final: TxState, payload: Option<Bytes>)
      modifies cache
      ensures cache.items == if final.Completed? && tx.respond && payload.Some?
                             then CacheSet(old(cache.items), tx.key, payload.value, now, TTLForMethod(cfg, tx.command))
                             else old(cache.items)
    {
      if final.Completed? && tx.respond && payload.Some? {
        cache.Set(tx.key, payload.value, now, TTLForMethod(cfg, tx.command));
      }
    }

    method Untrack(id: Id, tx: Tx)
      modifies this`pendingReplies, this`activeCloudRequests, this`transactions, this`retired
      ensures pendingReplies == old(pendingReplies) - {id}
      ensures activeCloudRequests == if tx.key.NoKey? then old(activeCloudRequests)
                else old(activeCloudRequests) - {tx.key}
      ensures transactions == old(transactions) - {id}
      ensures retired == old(retired)[id := tx]
    {
      pendingReplies := pendingReplies - {id};
      if !tx.key.NoKey? {
        activeCloudRequests := activeCloudRequests - {tx.key};
      }
      transactions := transactions - {id};
      retired := retired[id := tx];
    }

    method ReleaseIfHeld(id: Id)
      requires activeStateTx == Some(id) ==> stateLocked
      modifies this`stateLocked, this`activeStateTx, this`activeStateOwner
      ensures if old(activeStateTx) == Some(id)
              then !stateLocked && activeStateTx.None? && activeStateOwner.LockNone?
              else unchanged(this)
    {
      if activeStateTx == Some(id) {
        activeStateTx := None;
        activeStateOwner := LockNone;
        Unlock();
      }
    }

    /** The single place that pushes responses of transactions. */
    method Respond(id: Id, respond: bool, session: string, payload: Option<Bytes>)
      modifies this`pushed
      ensures pushed == if respond && payload.Some? && |payload.value| > 0
                        then old(pushed) + [Push(FromTransaction(id), session, payload.value)]
                        else old(pushed)
    {
      if respond && payload.Some? && |payload.value| > 0 {
        pushed := pushed + [Push(FromTransaction(id), session, payload.value)];
      }
    }

    method MarkPreparingDispatch(now: Time, id: Id) returns (err: Option<Error>)
      requires Valid(now)
      modifies this
      ensures View() == Manager.MarkPreparingDispatch(old(View()), id).0 &&
                err == Manager.MarkPreparingDispatch(old(View()), id).1
      ensures Valid(now)
    {
      hide MemInv;
      AdvanceKeeps(cfg, now, View(), id, PreparingDispatch);
      if id !in transactions { return Some(TransactionNotFound); }
      err := ValidateTransition(transactions[id].state, PreparingDispatch);
      if err.Some? { return; }
      transactions := transactions[id := transactions[id].(state := PreparingDispatch)];
    }

    method MarkPendingPublish(now: Time, id: Id) returns (err: Option<Error>)
      requires Valid(now)
      modifies this
      ensures View() == Manager.MarkPendingPublish(old(View()), id).0 &&
                err == Manager.MarkPendingPublish(old(View()), id).1
      ensures Valid(now)
    {
      hide MemInv;
      AdvanceKeeps(cfg, now, View(), id, PendingPublish);
      if id !in transactions { return Some(TransactionNotFound); }
      err := ValidateTransition(transactions[id].state, PendingPublish);
      if err.Some? { return; }
      transactions := transactions[id := transactions[id].(state := PendingPublish)];
    }

    method MarkInFlight(now: Time, id: Id) returns (err: Option<Error>)
      requires Valid(now)
      modifies this, cache
      ensures View() == Manager.MarkInFlight(cfg, now, old(View()), id).0 &&
                err == Manager.MarkInFlight(cfg, now, old(View()), id).1
      ensures Valid(now)
    {
      hide MemInv, Manager.TerminalTransition;
      HolderIsLocked(now);
      MarkInFlightKeeps(cfg, now, View(), id);
      if id !in transactions { return Some(TransactionNotFound); }
      err := ValidateTransition(transactions[id].state, InFlight);
      if err.Some? { return; }
      transactions := transactions[id := transactions[id].(state := InFlight)];
      if id in pendingReplies {
        err := DeliverPending(now, id);
        return;
      }
      var tx := transactions[id];
      transactions := transactions[id := tx.(deadline := Some(now + tx.timeout), timer := true, timedOnce := true)];
    }

    /** Take the buffered reply out of the table and finish the transaction with it. */
    method DeliverPending(now: Time, id: Id) returns (err: Option<Error>)
      requires id in pendingReplies && (activeStateTx == Some(id) ==> stateLocked)
      modifies this, cache
      ensures View() == Deliver(cfg, now, old(View()), id, old(pendingReplies[id])).0 &&
                err == Deliver(cfg, now, old(View()), id, old(pendingReplies[id])).1
    {
      hide Manager.TerminalTransition;
      var reply := pendingReplies[id];
      pendingReplies := pendingReplies - {id};
      err := TerminalTransition(now, id, reply.state, reply.payload);
    }

    method Complete(now: Time, id: Id, response: Option<Bytes>) returns (err: Option<Error>)
      requires Valid(now)
      modifies this, cache
      ensures View() == Manager.Complete(cfg, now, old(View()), id, response).0 &&
                err == Manager.Complete(cfg, now, old(View()), id, response).1
      ensures Valid(now)
    {
      hide MemInv, Manager.TerminalTransition;
      HolderIsLocked(now);
      CompleteKeeps(cfg, now, View(), id, response);
      if id !in transactions { return Some(TransactionNotFound); }
      var tx := transactions[id];
      if PreFlight(tx.state) || tx.handoff {
        if id in pendingReplies { return Some(AlreadyTerminal); }
        pendingReplies := pendingReplies[id := Reply(response, Completed)];
        return None;
      }
      err := TerminalTransition(now, id, Completed, response);
    }

    /** Deliver the buffered reply if it proves that the command was published (recoverToInFlight), else drop it. */
    method SettlePending(now: Time, id: Id) returns (delivered: bool)
      requires id in transactions && id in pendingReplies && (activeStateTx == Some(id) ==> stateLocked)
      modifies this, cache
      ensures delivered == ValidateTransition(old(transactions[id]).state, InFlight).None?
      ensures var m := old(View());
              View() == if delivered then Deliver(cfg, now, Update(m, id, m.live[id].(state := InFlight)), id,
                  m.pending[id]).0
                        else m.(pending := m.pending - {id})
    {
      hide Deliver;
      delivered := ValidateTransition(transactions[id].state, InFlight).None?;
      if delivered {
        transactions := transactions[id := transactions[id].(state := InFlight)];
        var _ := DeliverPending(now, id);
      } else {
        pendingReplies := pendingReplies - {id};
      }
    }

    /** The common body of Fail and Timeout. */
    method Conclude(now: Time, id: Id, final: TxState, payload: Option<Bytes>) returns (err: Option<Error>)
      requires activeStateTx == Some(id) ==> stateLocked
      modifies this, cache
      ensures View() == Manager.Conclude(cfg, now, old(View()), id, final, payload).0 &&
                err == Manager.Conclude(cfg, now, old(View()), id, final, payload).1
    {
      hide Manager.TerminalTransition, Deliver, ValidateTransition;
      if id !in transactions { return Some(TransactionNotFound); }
      var tx := transactions[id];
      if !tx.handoff && id in pendingReplies {
        var delivered := SettlePending(now, id);
        if delivered { return Some(AlreadyTerminal); }
      }
      if tx.handoff {
        if id in pendingReplies { return Some(AlreadyTerminal); }
        pendingReplies := pendingReplies[id := Reply(payload, final)];
        return None;
      }
      err := TerminalTransition(now, id, final, payload);
    }

    method Fail(now: Time, id: Id, response: Option<Bytes>) returns (err: Option<Error>)
      requires Valid(now)
      modifies this, cache
      ensures View() == Manager.Fail(cfg, now, old(View()), id, response).0 &&
                err == Manager.Fail(cfg, now, old(View()), id, response).1
      ensures Valid(now)
    {
      hide MemInv, Manager.Conclude;
      HolderIsLocked(now);
      ConcludeKeeps(cfg, now, View(), id, Failed, response);
      err := Conclude(now, id, Failed, response);
    }

    /** The callback of a response timer; its transaction, if it still exists, is in flight. */
    method Timeout(now: Time, id: Id) returns (err: Option<Error>)
      requires Valid(now) && (id in transactions ==> transactions[id].timedOnce)
      modifies this, cache
      ensures View() == Manager.Timeout(cfg, now, old(View()), id).0 &&
                err == Manager.Timeout(cfg, now, old(View()), id).1
      ensures Valid(now)
    {
      hide MemInv, Manager.Conclude, TimersAgree;
      HolderIsLocked(now);
      if id !in transactions { return Some(TransactionNotFound); }
      TimedOnceIsInFlight(now, id);
      var response := TimeoutResponse(cfg, transactions[id]);
      ConcludeKeeps(cfg, now, View(), id, TimedOut, response);
      err := Conclude(now, id, TimedOut, response);
    }

    method DispatchTimeoutFail(now: Time, id: Id)
      requires Valid(now)
      modifies this, cache
      ensures View() == Manager.DispatchTimeoutFail(cfg, now, old(View()), id)
      ensures Valid(now)
    {
      hide MemInv, Manager.TerminalTransition;
      HolderIsLocked(now);
      DispatchTimeoutKeeps(cfg, now, View(), id);
      if id !in transactions { return; }
      if PreFlight(transactions[id].state) {
        if id in pendingReplies {
          var delivered := SettlePending(now, id);
          if !delivered {
            var _ := TerminalTransition(now, id, Failed, None);
          }
        } else {
          var _ := TerminalTransition(now, id, Failed, None);
        }
      }
    }

    /** RespondAndRetain up to the unlock before the disk write. */
    method BeginRetain(now: Time, id: Id) returns (err: Option<Error>)
      requires Valid(now)
      modifies this
      ensures View() == BeginHandoff(old(View()), id).0 && err == BeginHandoff(old(View()), id).1
      ensures Valid(now)
    {
      hide MemInv;
      BeginHandoffKeeps(cfg, now, View(), id);
      if id !in transactions { return Some(TransactionNotFound); }
      var tx := transactions[id];
      if tx.command != "upgrade" { return Some(Rejected); }
      if !tx.state.InFlight? && !tx.state.PendingPublish? { return Some(InvalidStateTransition); }
      if activeStateTx != Some(id) { return Some(Rejected); }
      if tx.handoff { return Some(Error.HandoffInProgress); }
      transactions := transactions[id := tx.(handoff := true, timer := false)];
      activeStateOwner := TransferPending;
      return None;
    }

    /** RespondAndRetain after a failed Save; the transaction may be gone already. */
    method ResumeAfterFailure(now: Time, id: Id) returns (r: Resumption)
      requires Valid(now)
      requires if id in transactions then transactions[id].handoff else activeStateTx != Some(id)
      modifies this, cache
      ensures View() == ResumeFailed(cfg, now, old(View()), id).0 && r == ResumeFailed(cfg, now, old(View()), id).1
      ensures Valid(now)
    {
      hide MemInv, Manager.TerminalTransition;
      HolderIsLocked(now);
      FailureKeeps(now, id);
      if id in transactions {
        transactions := transactions[id := transactions[id].(handoff := false)];
      }
      if activeStateTx == Some(id) {
        activeStateOwner := OwnedByRPC;
      }
      if id in pendingReplies {
        var err := DeliverPending(now, id);
        return Returned(err);
      }
      var deadline := if id in transactions then transactions[id].deadline
          else if id in retired then retired[id].deadline else None;
      if deadline.None? || now >= deadline.value {
        var response := if id in transactions then TimeoutResponse(cfg, transactions[id]) else None;
        var _ := TerminalTransition(now, id, TimedOut, response);
        return Returned(Some(AlreadyTerminal));
      }
      if id in transactions {
        transactions := transactions[id := transactions[id].(timer := true, timedOnce := true)];
      }
      return Returned(Some(PersistFailed));
    }

    /** RespondAndRetain after the record of operation `op` was saved. */
    method ResumeAfterSave(now: Time, id: Id, op: Id, response: Option<Bytes>) returns (r: Resumption)
      requires Valid(now) && op !in transactions && (id in transactions ==> transactions[id].handoff)
      modifies this, cache
      ensures View() == ResumeSaved(cfg, now, old(View()), id, op, response).0 &&
                r == ResumeSaved(cfg, now, old(View()), id, op, response).1
      ensures Valid(now)
    {
      hide MemInv, Manager.TerminalTransition;
      HolderIsLocked(now);
      ResumeSavedKeeps(cfg, now, View(), id, op, response);
      if activeStateTx == Some(id) {
        activeStateTx := Some(op);
        activeStateOwner := OwnedByOperation;
      }
      if id in pendingReplies {
        if activeStateTx == Some(op) { return MustRelease(pendingReplies[id]); }
        var err := DeliverPending(now, id);
        return Returned(err);
      }
      var err := TerminalTransition(now, id, Completed, response);
      return Returned(err);
    }

    /** ReleaseOperationLock up to the unlock before the deletion. */
    method StartRelease(now: Time, op: Id) returns (err: Option<Error>)
      requires Valid(now)
      modifies this
      ensures View() == BeginRelease(old(View()), op).0 && err == BeginRelease(old(View()), op).1
      ensures Valid(now)
    {
      hide MemInv;
      HolderIsLocked(now);
      ReleaseKeeps(cfg, now, View(), op);
      if releasingOperation == Some(op) { return Some(OperationReleaseInProgress); }
      if activeStateTx != Some(op) || activeStateOwner != OwnedByOperation { return Some(OperationNotActive); }
      releasingOperation := Some(op);
      activeStateTx := None;
      activeStateOwner := LockNone;
      Unlock();
      return None;
    }

    /** ReleaseOperationLock after the deletion. */
    method FinishRelease(now: Time, op: Id)
      requires Valid(now)
      modifies this
      ensures View() == EndRelease(old(View()), op)
      ensures Valid(now)
    {
      hide MemInv;
      ReleaseKeeps(cfg, now, View(), op);
      if releasingOperation == Some(op) { releasingOperation := None; }
    }

    // ----- the operation store -----

    /** ReleaseOperationLock with nothing interleaved. */
    method ReleaseOperationLock(now: Time, op: Id, stays: set<Id>) returns (err: Option<Error>)
      requires Valid(now) && DiskStore.Faithful(store.codec)
      modifies this, store
      ensures Valid(now)
      ensures var (m, e) := BeginRelease(old(View()), op);
              && err == e
              && View() == (if e.None? then EndRelease(m, op) else old(View()))
              && store.Records() == (if e.None? then OperationSweep.Without(old(store.Records()), op, stays)
                   else old(store.Records()))
    {
      hide MemInv, DiskStore.Faithful, DiskStore.RecordsOf;
      err := StartRelease(now, op);
      if err.Some? { return; }
      DeleteRecord(op, stays);
      FinishRelease(now, op);
    }

    method DeleteRecord(op: Id, stays: set<Id>)
      requires DiskStore.Faithful(store.codec)
      modifies store
      ensures store.Records() == OperationSweep.Without(old(store.Records()), op, stays)
    {
      hide DiskStore.Faithful, DiskStore.RecordsOf;
      var _ := store.Delete(op, if op in stays then DiskStore.FailsBefore else DiskStore.Succeeds);
    }

    /** One turn of the sweeper's loop with nothing interleaved. */
    method SweepRecord(now: Time, rec: Rec, stays: set<Id>)
      requires Valid(now) && DiskStore.Faithful(store.codec)
      modifies this, store
      ensures Valid(now)
      ensures (View(), store.Records()) ==
                OperationSweep.SweepOne(cfg, now, old(View()), old(store.Records()), rec, stays)
    {
      hide MemInv, DiskStore.Faithful, DiskStore.RecordsOf, BeginRelease, EndRelease, Compatible, Expired;
      if !Compatible(cfg.bootID, rec) {
        DeleteRecord(rec.op, stays);
        return;
      }
      var isActive := activeStateTx == Some(rec.op);
      var isHandoff := activeStateOwner == TransferPending;
      if Expired(cfg.sweeperTTL, rec, now) {
        if isActive {
          var _ := ReleaseOperationLock(now, rec.op, stays);
        } else {
          DeleteRecord(rec.op, stays);
        }
        return;
      }
      if isHandoff { return; }
      if !isActive {
        DeleteRecord(rec.op, stays);
      }
    }

    /** sweepOrphanedOperations with nothing interleaved; None when the store could not be read. */
    method SweepOrphanedOperations(now: Time, alive: nat, stamp: nat, stuck: set<string>, stays: set<Id>)
      returns (ops: Option<seq<Rec>>)
      requires Valid(now) && DiskStore.Faithful(store.codec)
      modifies this, store
      ensures Valid(now)
      ensures ops.None? ==> View() == old(View()) && store.Records() == old(store.Records())
      ensures ops.Some? ==>
                && ActiveQuery(old(store.Records()), cfg.recordLimit, ops.value)
                && (View(), store.Records()) ==
                     OperationSweep.SweepAll(cfg, now, old(View()), old(store.Records()), ops.value, stays)
    {
      hide MemInv, DiskStore.Faithful, DiskStore.RecordsOf, OperationSweep.SweepOne, ActiveQuery, DiskStore.Tidied,
          DiskStore.Kept, DiskStore.FreeTargets;
      ops := store.GetActive(cfg.recordLimit, alive, stamp, stuck);
      if ops.None? { return; }
      var i := 0;
      assert ops.value[..0] == [];
      while i < |ops.value|
        invariant 0 <= i <= |ops.value|
        invariant Valid(now)
        invariant (View(), store.Records()) ==
                    OperationSweep.SweepAll(cfg, now, old(View()), old(store.Records()), ops.value[..i], stays)
      {
        OperationSweep.SweepAllSplit(cfg, now, old(View()), old(store.Records()), ops.value, stays, i);
        SweepRecord(now, ops.value[i], stays);
        i := i + 1;
      }
      assert ops.value[..i] == ops.value;
    }

    /**
     * Start: take the lock for the first recoverable record, then delete the records of earlier boots.
     * The result is the list it scanned, empty when the store could not be read.
     */
    method Start(now: Time, alive: nat, stamp: nat, stuck: set<string>, stays: set<Id>) returns (ops: seq<Rec>)
      requires View() == Blank() && DiskStore.Faithful(store.codec)
      modifies this, store
      ensures alive >= |old(store.files)| ==> ActiveQuery(old(store.Records()), cfg.recordLimit, ops)
      ensures View() == World.Recovered(cfg, now, ops)
      ensures stateLocked <==>
                exists i :: 0 <= i < |ops|
                  && (cfg.bootID == "" || ops[i].boot == "" || ops[i].boot == cfg.bootID)
                  && ops[i].updatedAt.Some? && now - ops[i].updatedAt.value <= cfg.sweeperTTL
      ensures forall op :: op in old(store.Records()) ==>
                (op !in store.Records() <==> World.StaleBoot(cfg, ops, op) && op !in stays)
      ensures forall limits, used :: old(store.Records()).Keys <= used ==>
                World.Started(World.Setup(cfg, limits), old(store.Records()), ops,
                    Booted(cfg, now, View(), store.Records(), ops, used))
    {
      hide DiskStore.Faithful, DiskStore.RecordsOf, DiskStore.Tidied, DiskStore.Kept, DiskStore.FreeTargets,
          Compatible, Expired, ActiveQuery, Blank, World.Started, Booted, World.Recovered, World.StaleBoot;
      RecordsAreNamed(store);
      var found := store.GetActive(cfg.recordLimit, alive, stamp, stuck);
      ops := if found.None? then [] else found.value;
      var stale := Recover(now, ops);
      DeleteStale(stale, stays);
      LockedByYoung(cfg, now, ops);
      forall limits, used | old(store.Records()).Keys <= used
        ensures World.Started(World.Setup(cfg, limits), old(store.Records()), ops,
                  Booted(cfg, now, View(), store.Records(), ops, used))
      {
        BootIsStarted(cfg, limits, now, old(store.Records()), store.Records(), ops, used);
      }
    }

    method DeleteStale(stale: seq<Id>, stays: set<Id>)
      requires DiskStore.Faithful(store.codec)
      modifies store
      ensures forall op :: op in store.Records() ==>
                op in old(store.Records()) && store.Records()[op] == old(store.Records())[op]
      ensures forall op :: op in old(store.Records()) ==> (op !in store.Records() <==> op in stale && op !in stays)
    {
      hide DiskStore.Faithful, DiskStore.RecordsOf;
      var i := 0;
      while i < |stale|
        invariant 0 <= i <= |stale|
        invariant forall op :: op in store.Records() ==>
                    op in old(store.Records()) && store.Records()[op] == old(store.Records())[op]
        invariant forall op :: op in old(store.Records()) ==>
                    (op !in store.Records() <==> op in stale[..i] && op !in stays)
      {
        DeleteRecord(stale[i], stays);
        i := i + 1;
      }
      assert stale[..i] == stale;
    }

    /** Start's scan, under the mutex. */
    method Recover(now: Time, ops: seq<Rec>) returns (stale: seq<Id>)
      requires View() == Blank()
      modifies this
      ensures View() == World.Recovered(cfg, now, ops)
      ensures forall op :: op in stale <==> World.StaleBoot(cfg, ops, op)
    {
      hide Compatible, Expired, World.StaleBoot;
      NothingIsStale(cfg);
      stale := [];
      var i := 0;
      assert ops[..0] == [];
      while i < |ops|
        invariant 0 <= i <= |ops|
        invariant View() == World.Recovered(cfg, now, ops[..i])
        invariant forall op :: op in stale <==> World.StaleBoot(cfg, ops[..i], op)
      {
        var op := ops[i];
        ghost var was := stale;
        ScanOne(cfg, now, ops, i);
        i := i + 1;
        if !Compatible(cfg.bootID, op) {
          stale := stale + [op.op];
          assert forall k :: k in stale <==> k in was || k == op.op;
        } else if activeStateTx.None? && !Expired(cfg.sweeperTTL, op, now) && !stateLocked {
          stateLocked := true;
          activeStateTx := Some(op.op);
          activeStateOwner := OwnedByOperation;
        }
      }
      assert ops[..i] == ops;
    }

    // ----- facts the methods start from -----

    lemma HolderIsLocked(now: Time)
      requires Valid(now)
      ensures activeStateTx.Some? ==> stateLocked
    {
    }

    lemma TimedOnceIsInFlight(now: Time, id: Id)
      requires Valid(now)
      ensures id in transactions && transactions[id].timedOnce ==> transactions[id].state.InFlight?
    {
    }

    lemma FailureKeeps(now: Time, id: Id)
      requires Valid(now)
      requires if id in transactions then transactions[id].handoff else activeStateTx != Some(id)
      ensures MemInv(cfg, now, ResumeFailed(cfg, now, View(), id).0)
    {
      if id in transactions {
        ResumeFailedKeepsLive(cfg, now, View(), id);
      } else {
        ResumeFailedOnRetired(cfg, now, View(), id);
      }
    }
  }

  /** The state of a process that has just run Start. */
  ghost function Booted(cfg: Config, now: Time, m: Mem, store: map<Id, Rec>, ops: seq<Rec>,
                        used: set<Id>): World.World {
    World.World(now, m, map[], map[], World.Idle, store,
                match FirstRecoverable(cfg.bootID, cfg.sweeperTTL, now, ops)
                case None => map[]
                case Some(rec) => map[rec.op := rec],
                used, 0, map[])
  }

  lemma BootIsStarted(cfg: Config, limits: Limits, now: Time, before: map<Id, Rec>, after: map<Id, Rec>,
                      ops: seq<Rec>, used: set<Id>)
    requires ops == [] || ActiveQuery(before, cfg.recordLimit, ops)
    requires forall op :: op in before ==> before[op].op == op
    requires forall op :: op in after ==> op in before && after[op] == before[op]
    requires forall op :: op in before && op !in after ==> World.StaleBoot(cfg, ops, op)
    requires before.Keys <= used
    ensures World.Started(World.Setup(cfg, limits), before, ops,
              Booted(cfg, now, World.Recovered(cfg, now, ops), after, ops, used))
  {
    hide ActiveQuery, World.StaleBoot, World.Recovered;
  }

  lemma RecordsAreNamed(store: DiskStore.DiskOperationStore)
    requires DiskStore.Faithful(store.codec)
    ensures forall op :: op in store.Records() ==> store.Records()[op].op == op
  {
    forall op | op in store.Records() ensures store.Records()[op].op == op {
      DiskStore.NameOf(store.codec, store.files, op);
    }
  }

  lemma NothingIsStale(cfg: Config)
    ensures forall op :: !World.StaleBoot(cfg, [], op)
  {
  }

  /** The lock is recovered exactly for a record of this boot within its time to live. */
  lemma LockedByYoung(cfg: Config, now: Time, ops: seq<Rec>)
    ensures World.Recovered(cfg, now, ops).locked <==>
            exists i :: 0 <= i < |ops|
              && (cfg.bootID == "" || ops[i].boot == "" || ops[i].boot == cfg.bootID)
              && ops[i].updatedAt.Some? && now - ops[i].updatedAt.value <= cfg.sweeperTTL
  {
    var first := FirstRecoverable(cfg.bootID, cfg.sweeperTTL, now, ops);
    if first.Some? {
      var k :| 0 <= k < |ops| && ops[k] == first.value;
    }
  }

  /** One more record of Start's scan. */
  lemma ScanOne(cfg: Config, now: Time, ops: seq<Rec>, i: nat)
    requires i < |ops|
    ensures var before := FirstRecoverable(cfg.bootID, cfg.sweeperTTL, now, ops[..i]);
            FirstRecoverable(cfg.bootID, cfg.sweeperTTL, now, ops[..i + 1]) ==
            if before.Some? then before
            else if Compatible(cfg.bootID, ops[i]) && !Expired(cfg.sweeperTTL, ops[i], now) then Some(ops[i])
            else None
    ensures forall op :: World.StaleBoot(cfg, ops[..i + 1], op) <==>
              World.StaleBoot(cfg, ops[..i], op) || (op == ops[i].op && !Compatible(cfg.bootID, ops[i]))
  {
    hide Expired;
    FirstOfPrefix(cfg.bootID, cfg.sweeperTTL, now, ops, i);
    var a, b := ops[..i], ops[..i + 1];
    assert b == a + [ops[i]] && b[i] == ops[i];
    forall op | World.StaleBoot(cfg, a, op) ensures World.StaleBoot(cfg, b, op) {
      var k :| 0 <= k < |a| && a[k].op == op && cfg.bootID != "" && a[k].boot != "" && a[k].boot != cfg.bootID;
      assert b[k] == a[k];
    }
  }

  lemma {:induction false} FirstOfPrefix(bootID: string, ttl: int, now: Time, ops: seq<Rec>, i: nat)
    requires i < |ops|
    ensures var before := FirstRecoverable(bootID, ttl, now, ops[..i]);
            FirstRecoverable(bootID, ttl, now, ops[..i + 1]) ==
            if before.Some? then before
            else if Compatible(bootID, ops[i]) && !Expired(ttl, ops[i], now) then Some(ops[i])
            else None
    decreases i
  {
    hide Compatible, Expired;
    if i > 0 {
      FirstOfPrefix(bootID, ttl, now, ops[1..], i - 1);
      assert ops[..i][1..] == ops[1..][..i - 1] && ops[..i + 1][1..] == ops[1..][..i];
    } else {
      assert ops[..1][1..] == [];
    }
  }
}
