/**
 * The request manager's memory and its critical sections: pkg/reqmgr/manager.go.
 * Each function below is what one stretch of code under m.mu does to that memory.
 */
module Manager {
  import opened Common
  import opened Transactions
  import opened CanonicalKeys

  datatype Owner = LockNone | OwnedByRPC | TransferPending | OwnedByOperation

  datatype Reply = Reply(payload: Option<Bytes>, state: TxState)

  datatype CacheEntry = CacheEntry(payload: Bytes, expiresAt: Time)

  datatype Origin = FromFrame(frame: nat) | FromTransaction(id: Id)

  /** A Priority-0 message handed to the outbound scheduler. */
  datatype Push = Push(origin: Origin, session: string, payload: Bytes)

  /** Settings fixed at construction; `timeoutText` is the JSON text of the timeout error for an id. */
  datatype Config = Config(
    maxConcurrent: int,
    defaultTTL: int,
    methodTTLs: map<string, int>,
    sweeperTTL: int,
    recordLimit: int,
    bootID: string,
    timeoutText: RawId -> Bytes)

  /**
   * The fields of DefaultRequestManager. `retired` keeps what the pointers to removed transactions
   * still reach, and `pushed` records every message given to the scheduler.
   */
  datatype Mem = Mem(
    live: map<Id, Tx>,
    retired: map<Id, Tx>,
    active: map<Key, Id>,
    locked: bool,
    holder: Option<Id>,
    owner: Owner,
    releasing: Option<Id>,
    cache: map<Key, CacheEntry>,
    pending: map<Id, Reply>,
    pushed: seq<Push>)

  const FIVE_MINUTES: nat := 300_000_000_000

  // ----- cache.go -----

  function TTLForMethod(cfg: Config, command: string): (ttl: nat)
    ensures ttl > 0
  {
    if command in cfg.methodTTLs && cfg.methodTTLs[command] > 0 then cfg.methodTTLs[command]
    else if cfg.defaultTTL > 0 then cfg.defaultTTL
    else FIVE_MINUTES
  }

  function CacheGet(cache: map<Key, CacheEntry>, key: Key, now: Time): Option<Bytes> {
    if key in cache && now < cache[key].expiresAt then Some(cache[key].payload) else None
  }

  function CacheSet(cache: map<Key, CacheEntry>, key: Key, payload: Bytes, now: Time, ttl: nat)
    : map<Key, CacheEntry>
  {
    cache[key := CacheEntry(payload, now + ttl)]
  }

  function CacheSweep(cache: map<Key, CacheEntry>, now: Time): map<Key, CacheEntry> {
    map key | key in cache && now < cache[key].expiresAt :: cache[key]
  }

  // ----- admission -----

  function Blank(): Mem {
    Mem(map[], map[], map[], false, None, LockNone, None, map[], map[], [])
  }

  function CreateTransaction(cfg: Config, now: Time, m: Mem, id: Id, session: string, cloudId: RawId,
                             respond: bool, command: string, timeout: Time, stateChanging: bool)
    : (Mem, Result<Id, Error>)
  {
    if IsNotification(cloudId) && respond then (m, Err(Rejected))
    else if command == "upgrade" && !stateChanging then (m, Err(Rejected))
    else
      match RequestKey(session, cloudId)
      case None => (m, Err(Rejected))
      case Some(key) =>
        match CacheGet(m.cache, key, now)
        case Some(cached) => (m, Err(CachedResponse(cached)))
        case None =>
          if key in m.active then (m, Err(DuplicateRequest))
          else if |m.live| >= cfg.maxConcurrent then (m, Err(CapacityExceeded))
          else if stateChanging && (!respond || IsNotification(cloudId)) then (m, Err(Rejected))
          else if stateChanging && m.locked then (m, Err(StateLockBusy))
          else
            var tx := Tx(session, cloudId, key, respond, command, Created, None, false, timeout, None, false, false);
            var n := m.(live := m.live[id := tx], active := if key.NoKey? then m.active else m.active[key := id]);
            (if stateChanging then n.(locked := true, holder := Some(id), owner := OwnedByRPC) else n, Ok(id))
  }

  // ----- the one exit -----

  /** Free the state lock if transaction `id` holds it. */
  function ReleaseFor(m: Mem, id: Id): Mem {
    if m.holder == Some(id) then m.(locked := false, holder := None, owner := LockNone) else m
  }

  /** What finishing transaction `tx` does to the manager: record, cache, forget, unlock, respond. */
  function Retire(cfg: Config, now: Time, m: Mem, id: Id, tx: Tx, final: TxState, payload: Option<Bytes>): Mem {
    var cache :=
      if final.Completed? && tx.respond && payload.Some?
      then CacheSet(m.cache, tx.key, payload.value, now, TTLForMethod(cfg, tx.command))
      else m.cache;
    var pushed :=
      if tx.respond && payload.Some? && |payload.value| > 0
      then m.pushed + [Push(FromTransaction(id), tx.session, payload.value)]
      else m.pushed;
    var n := m.(
      live := m.live - {id},
      retired := m.retired[id := tx.(state := final, payload := payload, timer := false)],
      active := if tx.key.NoKey? then m.active else m.active - {tx.key},
      cache := cache,
      pending := m.pending - {id},
      pushed := pushed);
    ReleaseFor(n, id)
  }

  /** terminalTransition: the only way out of the table. */
  function TerminalTransition(cfg: Config, now: Time, m: Mem, id: Id, final: TxState, payload: Option<Bytes>)
    : (Mem, Option<Error>)
  {
    if !Terminal(final) then (m, Some(InvalidStateTransition))
    else if id !in m.live then (m, Some(TransactionNotFound))
    else
      var bad := ValidateTransition(m.live[id].state, final);
      if bad.Some? then (m, bad) else (Retire(cfg, now, m, id, m.live[id], final, payload), None)
  }

  /** Drop the buffered reply of `id` and finish the transaction with it. */
  function Deliver(cfg: Config, now: Time, m: Mem, id: Id, reply: Reply): (Mem, Option<Error>) {
    TerminalTransition(cfg, now, m.(pending := m.pending - {id}), id, reply.state, reply.payload)
  }

  function Update(m: Mem, id: Id, tx: Tx): Mem {
    m.(live := m.live[id := tx])
  }

  function Advance(m: Mem, id: Id, to: TxState): (Mem, Option<Error>) {
    if id !in m.live then (m, Some(TransactionNotFound))
    else
      var bad := ValidateTransition(m.live[id].state, to);
      if bad.Some? then (m, bad) else (Update(m, id, m.live[id].(state := to)), None)
  }

  function MarkPreparingDispatch(m: Mem, id: Id): (Mem, Option<Error>) {
    Advance(m, id, PreparingDispatch)
  }

  function MarkPendingPublish(m: Mem, id: Id): (Mem, Option<Error>) {
    Advance(m, id, PendingPublish)
  }

  function MarkInFlight(cfg: Config, now: Time, m: Mem, id: Id): (Mem, Option<Error>) {
    var (n, bad) := Advance(m, id, InFlight);
    if bad.Some? then (n, bad)
    else if id in n.pending then Deliver(cfg, now, n, id, n.pending[id])
    else
      var tx := n.live[id];
      (Update(n, id, tx.(deadline := Some(now + tx.timeout), timer := true, timedOnce := true)), None)
  }

  // ----- terminal events -----

  function Complete(cfg: Config, now: Time, m: Mem, id: Id, response: Option<Bytes>): (Mem, Option<Error>) {
    if id !in m.live then (m, Some(TransactionNotFound))
    else if PreFlight(m.live[id].state) || m.live[id].handoff then
      if id in m.pending then (m, Some(AlreadyTerminal))
      else (m.(pending := m.pending[id := Reply(response, Completed)]), None)
    else TerminalTransition(cfg, now, m, id, Completed, response)
  }

  /** What Fail and Timeout share: buffer during a handoff, yield to a deliverable buffered reply, else finish. */
  function Conclude(cfg: Config, now: Time, m: Mem, id: Id, final: TxState, payload: Option<Bytes>)
    : (Mem, Option<Error>)
  {
    if id !in m.live then (m, Some(TransactionNotFound))
    else
      var tx := m.live[id];
      if tx.handoff then
        if id in m.pending then (m, Some(AlreadyTerminal))
        else (m.(pending := m.pending[id := Reply(payload, final)]), None)
      else if id in m.pending then
        if ValidateTransition(tx.state, InFlight).None? then
          var n := Update(m, id, tx.(state := InFlight));
          (Deliver(cfg, now, n, id, m.pending[id]).0, Some(AlreadyTerminal))
        else TerminalTransition(cfg, now, m.(pending := m.pending - {id}), id, final, payload)
      else TerminalTransition(cfg, now, m, id, final, payload)
  }

  function Fail(cfg: Config, now: Time, m: Mem, id: Id, response: Option<Bytes>): (Mem, Option<Error>) {
    Conclude(cfg, now, m, id, Failed, response)
  }

  function TimeoutResponse(cfg: Config, tx: Tx): Option<Bytes> {
    if tx.respond then Some(cfg.timeoutText(tx.cloudId)) else None
  }

  function Timeout(cfg: Config, now: Time, m: Mem, id: Id): (Mem, Option<Error>) {
    if id !in m.live then (m, Some(TransactionNotFound))
    else Conclude(cfg, now, m, id, TimedOut, TimeoutResponse(cfg, m.live[id]))
  }

  function DispatchTimeoutFail(cfg: Config, now: Time, m: Mem, id: Id): Mem {
    if id !in m.live || !PreFlight(m.live[id].state) then m
    else if id in m.pending then
      var tx := m.live[id];
      if ValidateTransition(tx.state, InFlight).None? then
        Deliver(cfg, now, Update(m, id, tx.(state := InFlight)), id, m.pending[id]).0
      else TerminalTransition(cfg, now, m.(pending := m.pending - {id}), id, Failed, None).0
    else TerminalTransition(cfg, now, m, id, Failed, None).0
  }

  // ----- lock handoff to a persistent operation -----

  /** RespondAndRetain up to the first unlock. */
  function BeginHandoff(m: Mem, id: Id): (Mem, Option<Error>) {
    if id !in m.live then (m, Some(TransactionNotFound))
    else
      var tx := m.live[id];
      if tx.command != "upgrade" then (m, Some(Rejected))
      else if !tx.state.InFlight? && !tx.state.PendingPublish? then (m, Some(InvalidStateTransition))
      else if m.holder != Some(id) then (m, Some(Rejected))
      else if tx.handoff then (m, Some(HandoffInProgress))
      else (Update(m, id, tx.(handoff := true, timer := false)).(owner := TransferPending), None)
  }

  /** How RespondAndRetain goes on after the store answered: return, or first release the operation. */
  datatype Resumption = Returned(error: Option<Error>) | MustRelease(reply: Reply)

  /** The response deadline reached through a pointer to transaction `id`, removed or not. */
  function Deadline(m: Mem, id: Id): Option<Time> {
    if id in m.live then m.live[id].deadline
    else if id in m.retired then m.retired[id].deadline
    else None
  }

  /** Take the lock back for transaction `id` and end its handoff. */
  function Reclaim(m: Mem, id: Id): Mem {
    var n := if id in m.live then Update(m, id, m.live[id].(handoff := false)) else m;
    if n.holder == Some(id) then n.(owner := OwnedByRPC) else n
  }

  /** RespondAndRetain after a failed Save. */
  function ResumeFailed(cfg: Config, now: Time, m: Mem, id: Id): (Mem, Resumption) {
    var o := Reclaim(m, id);
    var deadline := Deadline(o, id);
    if id in o.pending then
      var (p, e) := Deliver(cfg, now, o, id, o.pending[id]);
      (p, Returned(e))
    else if deadline.Some? && now < deadline.value then
      var p := if id in o.live then Update(o, id, o.live[id].(timer := true, timedOnce := true)) else o;
      (p, Returned(Some(PersistFailed)))
    else
      var response := if id in o.live then TimeoutResponse(cfg, o.live[id]) else None;
      (TerminalTransition(cfg, now, o, id, TimedOut, response).0, Returned(Some(AlreadyTerminal)))
  }

  /** RespondAndRetain after a successful Save of operation `op`. */
  function ResumeSaved(cfg: Config, now: Time, m: Mem, id: Id, op: Id, response: Option<Bytes>): (Mem, Resumption) {
    var n := if m.holder == Some(id) then m.(holder := Some(op), owner := OwnedByOperation) else m;
    if id in n.pending then
      if n.holder == Some(op) then (n, MustRelease(n.pending[id]))
      else
        var (o, e) := Deliver(cfg, now, n, id, n.pending[id]);
        (o, Returned(e))
    else
      var (o, e) := TerminalTransition(cfg, now, n, id, Completed, response);
      (o, Returned(e))
  }

  /** ReleaseOperationLock up to the first unlock. */
  function BeginRelease(m: Mem, op: Id): (Mem, Option<Error>) {
    if m.releasing == Some(op) then (m, Some(OperationReleaseInProgress))
    else if m.holder != Some(op) || !m.owner.OwnedByOperation? then (m, Some(OperationNotActive))
    else (m.(releasing := Some(op), locked := false, holder := None, owner := LockNone), None)
  }

  /** ReleaseOperationLock after the store answered. */
  function EndRelease(m: Mem, op: Id): Mem {
    if m.releasing == Some(op) then m.(releasing := None) else m
  }
}
