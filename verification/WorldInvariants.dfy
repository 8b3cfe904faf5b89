/** What every step of every interleaving keeps. */
module WorldInvariants {
  import opened Common
  import opened Transactions
  import opened Manager
  import opened ManagerInvariants
  import opened OperationStore
  import opened World

  // ----- identifiers -----

  ghost predicate TxIds(live: map<Id, Tx>, retired: map<Id, Tx>, exec: map<Id, Pc>, frameOf: map<Id, nat>,
                        used: set<Id>) {
    exec.Keys == live.Keys + retired.Keys == frameOf.Keys && exec.Keys <= used
  }

  /** An identifier drawn for an operation, never for a transaction. */
  ghost predicate OpId(exec: map<Id, Pc>, used: set<Id>, op: Id) {
    op in used && op !in exec
  }

  ghost predicate OpIds(exec: map<Id, Pc>, used: set<Id>, ops: set<Id>) {
    forall op :: op in ops ==> OpId(exec, used, op)
  }

  ghost function SweepOps(sweep: Sweep): seq<Rec> {
    if sweep.Idle? then [] else sweep.ops
  }

  ghost predicate OpsOfSweep(exec: map<Id, Pc>, used: set<Id>, sweep: Sweep) {
    forall i :: 0 <= i < |SweepOps(sweep)| ==> OpId(exec, used, SweepOps(sweep)[i].op)
  }

  ghost predicate OpsOfHands(exec: map<Id, Pc>, used: set<Id>, hand: map<Id, Handoff>) {
    && (forall id :: id in hand ==> id in exec && OpId(exec, used, hand[id].op))
    && (forall i, j :: i in hand && j in hand && hand[i].op == hand[j].op ==> i == j)
  }

  ghost predicate OpsOfLock(exec: map<Id, Pc>, used: set<Id>, m: Mem) {
    && (m.owner.OwnedByOperation? && m.holder.Some? ==> OpId(exec, used, m.holder.value))
    && (m.releasing.Some? ==> OpId(exec, used, m.releasing.value))
  }

  // ----- executors -----

  /** Where the executor of a live transaction is, given the transaction's state. */
  ghost predicate PcAgrees(tx: Tx, buffered: bool, pc: Pc) {
    match pc
    case Buffering => tx.state.Created?
    case Preparing => tx.state.Created?
    case Publishing => tx.state.PreparingDispatch?
    case Dispatching => tx.state.PendingPublish?
    case Marking => tx.state.PendingPublish?
    case Failing => PreFlight(tx.state)
    case Finished => tx.state.InFlight? || (tx.handoff && buffered)
  }

  ghost predicate PcsAgree(live: map<Id, Tx>, pending: map<Id, Reply>, exec: map<Id, Pc>) {
    forall id :: id in live ==> id in exec && PcAgrees(live[id], id in pending, exec[id])
  }

  // ----- handoffs -----

  ghost predicate BeforeResume(phase: Phase) {
    phase.Stamping? || phase.Saving?
  }

  /**
   * The handoff flag is set exactly while a RespondAndRetain call is under way; until its store
   * answer arrives that call's transaction holds the lock, afterwards its reply is still buffered.
   */
  ghost predicate HandAgrees(live: map<Id, Tx>, pending: map<Id, Reply>, holder: Option<Id>, owner: Owner, id: Id,
                             h: Handoff) {
    if BeforeResume(h.phase) then
      id in live ==> holder == Some(id) && owner.TransferPending?
    else
      && holder != Some(id)
      && (id in live ==> id in pending && pending[id] == h.phase.reply)
  }

  ghost predicate HandsAgree(live: map<Id, Tx>, pending: map<Id, Reply>, holder: Option<Id>, owner: Owner,
                             hand: map<Id, Handoff>) {
    && (forall id :: id in live ==> (live[id].handoff <==> id in hand))
    && (forall id :: id in hand ==> HandAgrees(live, pending, holder, owner, id, hand[id]))
  }

  // ----- records -----

  ghost predicate RecsAgree(bootID: string, recs: map<Id, Rec>, store: map<Id, Rec>) {
    && (forall op :: op in recs ==> recs[op].op == op && recs[op].active && Compatible(bootID, recs[op]))
    && (forall op :: op in store ==> store[op].op == op && (op in recs ==> store[op] == recs[op]))
  }

  ghost predicate RecOfHand(recs: map<Id, Rec>, store: map<Id, Rec>, h: Handoff) {
    && (h.phase.Stamping? ==> h.op !in recs && h.op !in store)
    && (h.phase.Saving? ==> h.op in recs && recs[h.op] == h.phase.rec)
    && (!BeforeResume(h.phase) ==> h.op in recs)
  }

  ghost predicate RecsOfHands(recs: map<Id, Rec>, store: map<Id, Rec>, hand: map<Id, Handoff>) {
    forall id :: id in hand ==> RecOfHand(recs, store, hand[id])
  }

  ghost predicate Fresh(hand: map<Id, Handoff>, op: Id) {
    exists id :: id in hand && hand[id].op == op && hand[id].phase.Stamping?
  }

  ghost predicate RecsOfSweep(recs: map<Id, Rec>, hand: map<Id, Handoff>, sweep: Sweep) {
    forall i :: 0 <= i < |SweepOps(sweep)| ==>
      var rec := SweepOps(sweep)[i];
      !Fresh(hand, rec.op) && (rec.op in recs ==> recs[rec.op] == rec)
  }

  // ----- durability and deletion -----

  /** Operation `op` holds the lock, or will hold it if the running Save succeeds. */
  ghost predicate Protected(owner: Owner, holder: Option<Id>, hand: map<Id, Handoff>, op: Id) {
    || (owner.OwnedByOperation? && holder == Some(op))
    || (owner.TransferPending? && holder.Some? && holder.value in hand && hand[holder.value].op == op)
  }

  ghost predicate StoredOrExpired(ttl: int, now: Time, recs: map<Id, Rec>, store: map<Id, Rec>, op: Id) {
    op in recs && (op in store || Expired(ttl, recs[op], now))
  }

  /** The record of the operation that owns the lock, or is about to, is in the store or past its TTL. */
  ghost predicate Durable(ttl: int, now: Time, owner: Owner, holder: Option<Id>, hand: map<Id, Handoff>,
                          recs: map<Id, Rec>, store: map<Id, Rec>) {
    && (owner.OwnedByOperation? && holder.Some? ==> StoredOrExpired(ttl, now, recs, store, holder.value))
    && (owner.TransferPending? && holder.Some? && holder.value in hand &&
        hand[holder.value].phase.Saving? && hand[holder.value].phase.written ==>
          StoredOrExpired(ttl, now, recs, store, hand[holder.value].op))
  }

  /** The sweeper is about to delete the head record only if nothing depends on it any more, or it expired. */
  ghost predicate SweepSafe(ttl: int, now: Time, owner: Owner, holder: Option<Id>, hand: map<Id, Handoff>,
                            sweep: Sweep) {
    && (sweep.Running? ==> sweep.at <= now)
    && (sweep.Running? && sweep.ops != [] ==>
          && (sweep.phase.Removing? ==>
                !Protected(owner, holder, hand, sweep.ops[0].op) || Expired(ttl, sweep.ops[0], now))
          && (sweep.phase.FreedDeleting? || sweep.phase.FreedClearing? ==>
                !Protected(owner, holder, hand, sweep.ops[0].op)))
  }

  /** Operations being released no longer depend on their record. */
  ghost predicate ReleasesSafe(owner: Owner, holder: Option<Id>, hand: map<Id, Handoff>, releasing: Option<Id>) {
    && (releasing.Some? ==> !Protected(owner, holder, hand, releasing.value))
    && (forall id :: id in hand && (hand[id].phase.Deleting? || hand[id].phase.Clearing?) ==>
          !Protected(owner, holder, hand, hand[id].op))
  }

  // ----- frames -----

  ghost predicate FramesAgree(pushed: seq<Push>, frames: nat, frameOf: map<Id, nat>) {
    && (forall i :: 0 <= i < |pushed| && pushed[i].origin.FromFrame? ==>
          pushed[i].origin.frame < frames && pushed[i].origin.frame !in frameOf.Values)
    && (forall id :: id in frameOf ==> frameOf[id] < frames)
    && (forall i, j :: i in frameOf && j in frameOf && frameOf[i] == frameOf[j] ==> i == j)
  }

  ghost predicate Identities(w: World) {
    && TxIds(w.mem.live, w.mem.retired, w.exec, w.frameOf, w.used)
    && OpIds(w.exec, w.used, w.store.Keys)
    && OpIds(w.exec, w.used, w.recs.Keys)
    && OpsOfSweep(w.exec, w.used, w.sweep)
    && OpsOfHands(w.exec, w.used, w.hand)
    && OpsOfLock(w.exec, w.used, w.mem)
  }

  ghost predicate Processes(w: World) {
    && PcsAgree(w.mem.live, w.mem.pending, w.exec)
    && HandsAgree(w.mem.live, w.mem.pending, w.mem.holder, w.mem.owner, w.hand)
  }

  ghost predicate Records(cfg: Config, w: World) {
    && RecsAgree(cfg.bootID, w.recs, w.store)
    && RecsOfHands(w.recs, w.store, w.hand)
    && RecsOfSweep(w.recs, w.hand, w.sweep)
  }

  ghost predicate Safety(cfg: Config, w: World) {
    && Durable(cfg.sweeperTTL, w.now, w.mem.owner, w.mem.holder, w.hand, w.recs, w.store)
    && SweepSafe(cfg.sweeperTTL, w.now, w.mem.owner, w.mem.holder, w.hand, w.sweep)
    && ReleasesSafe(w.mem.owner, w.mem.holder, w.hand, w.mem.releasing)
  }

  ghost predicate Inv(s: Setup, w: World) {
    && MemInv(s.cfg, w.now, w.mem)
    && Identities(w)
    && Processes(w)
    && Records(s.cfg, w)
    && Safety(s.cfg, w)
    && FramesAgree(w.mem.pushed, w.frames, w.frameOf)
  }
}
