/**
 * Runs every idle process has: an upgrade that is admitted, executed and handed to a durable operation which
 * then owns the state lock; a Save that returns too late; and a reply that comes before its command was published.
 */
module Scenarios {
  import opened Common
  import opened Transactions
  import opened CanonicalKeys
  import opened Manager
  import opened OperationStore
  import opened FrameHandler
  import opened World
  import opened WorldInvariants
  import opened WorldSteps
  import opened OperationTheorems
  import opened RequestTheorems
  import opened LockRelease
  import opened AdmissionTheorems
  import opened AnswerTheorems

  /** An acceptable upgrade request with an id. */
  ghost predicate GoodUpgrade(s: Setup, f: Inbound) {
    && f.Request? && f.command == "upgrade" && f.valid && f.paramsOk && !IsNotification(f.id)
    && f.size <= s.limits.absolute && f.size <= s.limits.other
    && RequestKey(f.session, f.id).Some?
  }

  /** Where transaction `id` of request `f` is, with nothing buffered for it. */
  ghost predicate On(w: World, id: Id, f: Inbound, state: TxState, pc: Pc, owner: Owner) {
    && id in w.mem.live && id !in w.mem.pending && AtPc(w, id, pc)
    && w.mem.holder == Some(id) && w.mem.owner == owner
    && w.mem.live[id].session == f.session && w.mem.live[id].respond && w.mem.live[id].command == "upgrade"
    && w.mem.live[id].state == state && w.mem.live[id].handoff == owner.TransferPending?
  }

  ghost predicate SameStore(w: World, v: World) {
    && v.store == w.store && v.used == w.used && v.now == w.now && v.mem.pushed == w.mem.pushed
    && v.sweep == w.sweep && v.hand == w.hand
  }

  lemma Admits(s: Setup, w: World, f: Inbound, id: Id)
    requires GoodUpgrade(s, f) && w.mem.live == map[] && w.mem.active == map[] && w.mem.cache == map[] &&
               w.mem.pending == map[]
    requires !w.mem.locked && s.cfg.maxConcurrent >= 1 && id !in w.used
    ensures var step := Frame(f, false, id, []);
            && Enabled(s, w, step) && On(Apply(s, w, step), id, f, Created, Buffering, OwnedByRPC)
            && Apply(s, w, step).hand == w.hand && Apply(s, w, step).sweep == w.sweep
            && Apply(s, w, step).used == w.used + {id}
            && Apply(s, w, step).store == w.store && Apply(s, w, step).now == w.now &&
                 Apply(s, w, step).mem.pushed == w.mem.pushed
  {
    hide RequestKey, IsNotification;
    assert Decide(s.limits, false, f) == Admit(true, true);
    hide Decide;
  }

  lemma Buffers(s: Setup, w: World, f: Inbound, id: Id)
    requires On(w, id, f, Created, Buffering, OwnedByRPC)
    ensures var step := ExecBuffer(id, false);
            Enabled(s, w, step) && On(Apply(s, w, step), id, f, Created, Preparing, OwnedByRPC) &&
                SameStore(w, Apply(s, w, step))
  {
  }

  lemma Prepares(s: Setup, w: World, f: Inbound, id: Id)
    requires On(w, id, f, Created, Preparing, OwnedByRPC)
    ensures var step := ExecPreparing(id);
            Enabled(s, w, step) && On(Apply(s, w, step), id, f, PreparingDispatch, Publishing, OwnedByRPC) &&
                SameStore(w, Apply(s, w, step))
  {
  }

  lemma Publishes(s: Setup, w: World, f: Inbound, id: Id)
    requires On(w, id, f, PreparingDispatch, Publishing, OwnedByRPC)
    ensures var step := ExecPublishing(id);
            Enabled(s, w, step) && On(Apply(s, w, step), id, f, PendingPublish, Dispatching, OwnedByRPC) &&
                SameStore(w, Apply(s, w, step))
  {
  }

  lemma Dispatches(s: Setup, w: World, f: Inbound, id: Id)
    requires On(w, id, f, PendingPublish, Dispatching, OwnedByRPC)
    ensures var step := ExecDispatch(id, true);
            Enabled(s, w, step) && On(Apply(s, w, step), id, f, PendingPublish, Marking, OwnedByRPC) &&
                SameStore(w, Apply(s, w, step))
  {
  }

  lemma Marks(s: Setup, w: World, f: Inbound, id: Id)
    requires On(w, id, f, PendingPublish, Marking, OwnedByRPC)
    ensures var step := ExecInFlight(id);
            Enabled(s, w, step) && On(Apply(s, w, step), id, f, InFlight, Finished, OwnedByRPC) &&
                SameStore(w, Apply(s, w, step))
  {
    hide Deliver;
  }

  lemma Retains(s: Setup, w: World, f: Inbound, id: Id, op: Id, response: Bytes)
    requires On(w, id, f, InFlight, Finished, OwnedByRPC) && op !in w.used
    ensures var step := ResultRetain(id, op, Some(response));
            var v := Apply(s, w, step);
            && Enabled(s, w, step) && On(v, id, f, InFlight, Finished, TransferPending)
            && v.hand == w.hand[id := Handoff(op, Some(response), Stamping)] && v.sweep == w.sweep
            && v.store == w.store && v.now == w.now && v.mem.pushed == w.mem.pushed
  {
  }

  /** The record a handoff saves now. */
  ghost function RecordFor(s: Setup, w: World, id: Id): Rec
    requires id in w.hand
  {
    Rec(w.hand[id].op, id, s.cfg.bootID, Some(Stamp(w.now)), true)
  }

  lemma Stamps(s: Setup, w: World, f: Inbound, id: Id)
    requires On(w, id, f, InFlight, Finished, TransferPending) && id in w.hand && w.hand[id].phase.Stamping?
    ensures var step := HandoffStamp(id);
            var v := Apply(s, w, step);
            && Enabled(s, w, step) && On(v, id, f, InFlight, Finished, TransferPending)
            && v.hand == w.hand[id := w.hand[id].(phase := Saving(RecordFor(s, w, id), false))] && v.sweep == w.sweep
            && v.store == w.store && v.now == w.now && v.mem.pushed == w.mem.pushed
  {
  }

  lemma Writes(s: Setup, w: World, f: Inbound, id: Id)
    requires On(w, id, f, InFlight, Finished, TransferPending) && id in w.hand && w.hand[id].phase.Saving? &&
               !w.hand[id].phase.written
    ensures var step := HandoffWrite(id);
            var v := Apply(s, w, step);
            var rec := w.hand[id].phase.rec;
            && Enabled(s, w, step) && On(v, id, f, InFlight, Finished, TransferPending)
            && v.hand == w.hand[id := w.hand[id].(phase := Saving(rec, true))] && v.sweep == w.sweep
            && v.store == w.store[rec.op := rec] && v.now == w.now && v.mem.pushed == w.mem.pushed
  {
  }

  lemma Saves(s: Setup, w: World, f: Inbound, id: Id, response: Bytes)
    requires On(w, id, f, InFlight, Finished, TransferPending) && id in w.hand && w.hand[id].phase.Saving? &&
               w.hand[id].phase.written
    requires w.hand[id].response == Some(response) && response != [] && w.hand[id].op != id
    ensures var step := HandoffSaved(id);
            var v := Apply(s, w, step);
            && Enabled(s, w, step) && Owns(v.mem, w.hand[id].op) && v.store == w.store
            && v.hand == w.hand - {id} && v.sweep == w.sweep
            && id in v.mem.retired && v.mem.retired[id].state == Completed
            && v.mem.pushed == w.mem.pushed + [Push(FromTransaction(id), f.session, response)]
  {
    hide CacheSet, TTLForMethod;
  }

  ghost predicate Reaches(s: Setup, w: World, run: seq<Step>, v: World) {
    ValidRun(s, w, run) && Final(s, w, run) == v
  }

  lemma Extend(s: Setup, w: World, run: seq<Step>, v: World, step: Step)
    requires Reaches(s, w, run, v) && Enabled(s, v, step)
    ensures Reaches(s, w, run + [step], Apply(s, v, step))
  {
    hide Apply, Enabled, ValidRun, Final;
    OneStep(s, v, step);
    RunsCompose(s, w, run, [step]);
  }

  lemma FreshProcess(s: Setup, before: map<Id, Rec>, ops: seq<Rec>, w: World)
    requires Started(s, before, ops, w)
    ensures w.mem.live == map[] && w.mem.active == map[] && w.mem.cache == map[] && w.mem.pending == map[]
    ensures w.mem.pushed == [] && w.hand == map[] && w.sweep == Idle && Reaches(s, w, [], w)
  {
    hide ActiveQuery;
  }

  /** Admission and execution: six steps to a transaction in flight. */
  lemma ReachesInFlight(s: Setup, w: World, f: Inbound, id: Id) returns (run: seq<Step>, v: World)
    requires GoodUpgrade(s, f) && w.mem.live == map[] && w.mem.active == map[] && w.mem.cache == map[] &&
               w.mem.pending == map[]
    requires !w.mem.locked && s.cfg.maxConcurrent >= 1 && id !in w.used && Reaches(s, w, [], w)
    ensures |run| == 6 && Reaches(s, w, run, v) && On(v, id, f, InFlight, Finished, OwnedByRPC)
    ensures v.used == w.used + {id} && v.store == w.store && v.now == w.now && v.mem.pushed == w.mem.pushed
    ensures v.hand == w.hand && v.sweep == w.sweep
  {
    hide Apply, Enabled, GoodUpgrade, Reaches, On;
    Admits(s, w, f, id);
    Extend(s, w, [], w, Frame(f, false, id, []));
    run, v := [] + [Frame(f, false, id, [])], Apply(s, w, Frame(f, false, id, []));
    Buffers(s, v, f, id);
    Extend(s, w, run, v, ExecBuffer(id, false));
    run, v := run + [ExecBuffer(id, false)], Apply(s, v, ExecBuffer(id, false));
    Prepares(s, v, f, id);
    Extend(s, w, run, v, ExecPreparing(id));
    run, v := run + [ExecPreparing(id)], Apply(s, v, ExecPreparing(id));
    Publishes(s, v, f, id);
    Extend(s, w, run, v, ExecPublishing(id));
    run, v := run + [ExecPublishing(id)], Apply(s, v, ExecPublishing(id));
    Dispatches(s, v, f, id);
    Extend(s, w, run, v, ExecDispatch(id, true));
    run, v := run + [ExecDispatch(id, true)], Apply(s, v, ExecDispatch(id, true));
    Marks(s, v, f, id);
    Extend(s, w, run, v, ExecInFlight(id));
    run, v := run + [ExecInFlight(id)], Apply(s, v, ExecInFlight(id));
  }

  /** Handoff: three steps from a transaction in flight to a record that is written while its Save is still out. */
  lemma ReachesWritten(s: Setup, w: World, before: seq<Step>, u: World, f: Inbound, id: Id, op: Id, response: Bytes)
    returns (run: seq<Step>, v: World)
    requires Reaches(s, w, before, u) && On(u, id, f, InFlight, Finished, OwnedByRPC) && op !in u.used
    ensures |run| == |before| + 3 && Reaches(s, w, run, v) && On(v, id, f, InFlight, Finished, TransferPending)
    ensures var rec := Rec(op, id, s.cfg.bootID, Some(Stamp(u.now)), true);
            && v.hand == u.hand[id := Handoff(op, Some(response), Saving(rec, true))]
            && v.store == u.store[op := rec]
    ensures v.sweep == u.sweep && v.now == u.now && v.mem.pushed == u.mem.pushed
  {
    hide Apply, Enabled, Reaches, On, Stamp;
    var retain := ResultRetain(id, op, Some(response));
    Retains(s, u, f, id, op, response);
    Extend(s, w, before, u, retain);
    run, v := before + [retain], Apply(s, u, retain);
    Stamps(s, v, f, id);
    Extend(s, w, run, v, HandoffStamp(id));
    run, v := run + [HandoffStamp(id)], Apply(s, v, HandoffStamp(id));
    Writes(s, v, f, id);
    Extend(s, w, run, v, HandoffWrite(id));
    run, v := run + [HandoffWrite(id)], Apply(s, v, HandoffWrite(id));
  }

  /**
   * From every started process whose lock is free, an upgrade request leads in ten steps to an operation
   * that owns the state lock, with its record stored and exactly its response pushed to its session.
   */
  lemma UpgradeCanSucceed(s: Setup, before: map<Id, Rec>, ops: seq<Rec>, w: World, f: Inbound, id: Id, op: Id,
                          response: Bytes)
    returns (run: seq<Step>, v: World)
    requires Started(s, before, ops, w) && !w.mem.locked && GoodUpgrade(s, f) && s.cfg.maxConcurrent >= 1
    requires id !in w.used && op !in w.used && id != op && response != []
    ensures |run| == 10 && ValidRun(s, w, run) && Final(s, w, run) == v
    ensures Owns(v.mem, op) && op in v.store && v.store[op] == Rec(op, id, s.cfg.bootID, Some(Stamp(w.now)), true)
    ensures id in v.mem.retired && v.mem.retired[id].state == Completed
    ensures v.mem.pushed == [Push(FromTransaction(id), f.session, response)]
  {
    hide GoodUpgrade, Started, On, ValidRun, Final, Apply, Enabled;
    FreshProcess(s, before, ops, w);
    run, v := ReachesInFlight(s, w, f, id);
    run, v := ReachesWritten(s, w, run, v, f, id, op, response);
    Saves(s, v, f, id, response);
    Extend(s, w, run, v, HandoffSaved(id));
    run, v := run + [HandoffSaved(id)], Apply(s, v, HandoffSaved(id));
  }

  // ----- a query that is asked and answered -----

  /** Query `id` of frame `f` has come this far, with nothing buffered for it and the lock with somebody else. */
  ghost predicate Asking(w: World, id: Id, f: Inbound, state: TxState, pc: Pc) {
    && id in w.mem.live && id !in w.mem.pending && AtPc(w, id, pc) && w.mem.holder != Some(id)
    && w.mem.live[id].session == f.session && w.mem.live[id].respond && !w.mem.live[id].handoff
    && w.mem.live[id].state == state
  }

  ghost predicate SameOutside(w: World, v: World) {
    && v.mem.locked == w.mem.locked && v.mem.holder == w.mem.holder && v.mem.owner == w.mem.owner
    && v.mem.pushed == w.mem.pushed && v.mem.active == w.mem.active
  }

  lemma AsksBuffer(s: Setup, w: World, f: Inbound, id: Id)
    requires Asking(w, id, f, Created, Buffering)
    ensures var step := ExecBuffer(id, false);
            && Enabled(s, w, step) && Asking(Apply(s, w, step), id, f, Created, Preparing)
            && SameOutside(w, Apply(s, w, step))
  {
  }

  lemma AsksPrepare(s: Setup, w: World, f: Inbound, id: Id)
    requires Asking(w, id, f, Created, Preparing)
    ensures var step := ExecPreparing(id);
            && Enabled(s, w, step) && Asking(Apply(s, w, step), id, f, PreparingDispatch, Publishing)
            && SameOutside(w, Apply(s, w, step))
  {
  }

  lemma AsksPublish(s: Setup, w: World, f: Inbound, id: Id)
    requires Asking(w, id, f, PreparingDispatch, Publishing)
    ensures var step := ExecPublishing(id);
            && Enabled(s, w, step) && Asking(Apply(s, w, step), id, f, PendingPublish, Dispatching)
            && SameOutside(w, Apply(s, w, step))
  {
  }

  lemma AsksDispatch(s: Setup, w: World, f: Inbound, id: Id)
    requires Asking(w, id, f, PendingPublish, Dispatching)
    ensures var step := ExecDispatch(id, true);
            && Enabled(s, w, step) && Asking(Apply(s, w, step), id, f, PendingPublish, Marking)
            && SameOutside(w, Apply(s, w, step))
  {
  }

  lemma AsksMark(s: Setup, w: World, f: Inbound, id: Id)
    requires Asking(w, id, f, PendingPublish, Marking)
    ensures var step := ExecInFlight(id);
            && Enabled(s, w, step) && Asking(Apply(s, w, step), id, f, InFlight, Finished)
            && SameOutside(w, Apply(s, w, step))
  {
    hide Deliver;
  }

  lemma AsksComplete(s: Setup, w: World, f: Inbound, id: Id, response: Bytes)
    requires Asking(w, id, f, InFlight, Finished) && NoKey !in w.mem.active && response != []
    ensures var step := ResultComplete(id, Some(response));
            var v := Apply(s, w, step);
            && Enabled(s, w, step)
            && id in v.mem.retired && v.mem.retired[id].state == Completed &&
                 v.mem.retired[id].payload == Some(response)
            && v.mem.locked == w.mem.locked && v.mem.holder == w.mem.holder && v.mem.owner == w.mem.owner
            && v.mem.pushed == w.mem.pushed + [Push(FromTransaction(id), f.session, response)]
  {
    hide Complete;
    CompleteEnds(s.cfg, w.now, w.mem, id, Some(response));
  }

  lemma OpenedAsks(w: World, v: World, f: Inbound, id: Id)
    requires OnlyOpened(w, v, f, id) && id !in w.mem.pending && w.mem.holder != Some(id) && !IsNotification(f.id)
    requires v.mem.locked == w.mem.locked && v.mem.holder == w.mem.holder && v.mem.owner == w.mem.owner
    requires NoKey !in w.mem.active
    ensures Asking(v, id, f, Created, Buffering) && v.mem.pushed == w.mem.pushed && NoKey !in v.mem.active
  {
  }

  /** A process that has just started has nothing in its tables. */
  lemma FreshTables(s: Setup, before: map<Id, Rec>, ops: seq<Rec>, w: World, f: Inbound)
    requires Started(s, before, ops, w) && s.cfg.maxConcurrent >= 1 && RequestKey(f.session, f.id).Some?
    ensures Admissible(s, w, f) && w.mem.active == map[] && w.mem.pending == map[] && w.mem.pushed == []
    ensures Reaches(s, w, [], w)
  {
    hide ActiveQuery, RequestKey;
  }

  /**
   * From every started process, whoever holds the state lock, an acceptable query with an id leads in seven
   * steps to its answer on the session it came from, and the lock is where it was.
   */
  lemma QueryCanBeAnswered(s: Setup, before: map<Id, Rec>, ops: seq<Rec>, w: World, f: Inbound, id: Id, response: Bytes)
    returns (run: seq<Step>, v: World)
    requires Started(s, before, ops, w) && s.cfg.maxConcurrent >= 1 && id !in w.used && response != []
    requires Executable(s.limits, false, f) && f.command in QUERIES && !IsNotification(f.id)
    requires RequestKey(f.session, f.id).Some?
    ensures |run| == 7 && ValidRun(s, w, run) && Final(s, w, run) == v
    ensures id in v.mem.retired && v.mem.retired[id].state == Completed
    ensures v.mem.pushed == [Push(FromTransaction(id), f.session, response)]
    ensures v.mem.locked == w.mem.locked && v.mem.holder == w.mem.holder && v.mem.owner == w.mem.owner
  {
    hide Inv, Started, Asking, ValidRun, Final, Apply, Enabled, Executable, Admissible, RequestKey, IsNotification,
        OnlyOpened;
    StartKeeps(s, before, ops, w);
    FreshTables(s, before, ops, w, f);
    NewIdFacts(s, w, id);
    var step := Frame(f, false, id, []);
    QueryFrame(s, w, f, id, []);
    FrameStep(s, w, f, id);
    run, v := [] + [step], Apply(s, w, step);
    OpenedAsks(w, v, f, id);
    Extend(s, w, [], w, step);
    AsksBuffer(s, v, f, id);
    Extend(s, w, run, v, ExecBuffer(id, false));
    run, v := run + [ExecBuffer(id, false)], Apply(s, v, ExecBuffer(id, false));
    AsksPrepare(s, v, f, id);
    Extend(s, w, run, v, ExecPreparing(id));
    run, v := run + [ExecPreparing(id)], Apply(s, v, ExecPreparing(id));
    AsksPublish(s, v, f, id);
    Extend(s, w, run, v, ExecPublishing(id));
    run, v := run + [ExecPublishing(id)], Apply(s, v, ExecPublishing(id));
    AsksDispatch(s, v, f, id);
    Extend(s, w, run, v, ExecDispatch(id, true));
    run, v := run + [ExecDispatch(id, true)], Apply(s, v, ExecDispatch(id, true));
    AsksMark(s, v, f, id);
    Extend(s, w, run, v, ExecInFlight(id));
    run, v := run + [ExecInFlight(id)], Apply(s, v, ExecInFlight(id));
    AsksComplete(s, v, f, id, response);
    Extend(s, w, run, v, ResultComplete(id, Some(response)));
    run, v := run + [ResultComplete(id, Some(response))], Apply(s, v, ResultComplete(id, Some(response)));
  }

  lemma FrameStep(s: Setup, w: World, f: Inbound, id: Id)
    requires id !in w.used
    ensures Enabled(s, w, Frame(f, false, id, [])) &&
              Apply(s, w, Frame(f, false, id, [])) == ReceiveFrame(s, w, f, false, id, [])
  {
    hide ReceiveFrame;
  }

  // ----- a command that cannot be dispatched -----

  /**
   * If the dispatch buffer is full or the dispatch fails, two steps of the executor end its transaction as Failed
   * and answer with the executor's error.
   */
  lemma LocalFailureIsAnswered(s: Setup, w: World, f: Inbound, id: Id, full: bool,
                               text: Bytes) returns (run: seq<Step>, v: World)
    requires text != []
    requires if full then Asking(w, id, f, Created, Buffering) else Asking(w, id, f, PendingPublish, Dispatching)
    ensures |run| == 2 && ValidRun(s, w, run) && Final(s, w, run) == v
    ensures id !in v.mem.live && id in v.mem.retired && v.mem.retired[id].state == Failed
    ensures v.mem.pushed == w.mem.pushed + [Push(FromTransaction(id), f.session, text)]
  {
    hide ValidRun, Final, Apply, Enabled, Asking;
    var step := if full then ExecBuffer(id, true) else ExecDispatch(id, false);
    Gives(s, w, f, id, full);
    var u := Apply(s, w, step);
    FailsLocally(s, u, f, id, text);
    TwoSteps(s, w, step, ExecFail(id, text));
    run, v := [step, ExecFail(id, text)], Apply(s, u, ExecFail(id, text));
  }

  lemma Gives(s: Setup, w: World, f: Inbound, id: Id, full: bool)
    requires if full then Asking(w, id, f, Created, Buffering) else Asking(w, id, f, PendingPublish, Dispatching)
    ensures var step := if full then ExecBuffer(id, true) else ExecDispatch(id, false);
            && Enabled(s, w, step) && Apply(s, w, step).mem == w.mem
            && Asking(Apply(s, w, step), id, f, if full then Created else PendingPublish, Failing)
  {
  }

  lemma FailsLocally(s: Setup, w: World, f: Inbound, id: Id, text: Bytes)
    requires Asking(w, id, f, Created, Failing) || Asking(w, id, f, PendingPublish, Failing)
    requires text != []
    ensures var step := ExecFail(id, text);
            && Enabled(s, w, step)
            && id !in Apply(s, w, step).mem.live && id in Apply(s, w, step).mem.retired
            && Apply(s, w, step).mem.retired[id].state == Failed
            && Apply(s, w, step).mem.pushed == w.mem.pushed + [Push(FromTransaction(id), f.session, text)]
  {
    hide CacheSet, TTLForMethod;
  }

  // ----- a reply that arrives while the record is saved -----

  /** The handoff of `id` in phase `phase`, whose reply is still buffered. */
  ghost predicate Ending(w: World, id: Id, op: Id, phase: Phase, reply: Reply) {
    && id in w.hand && w.hand[id].op == op && w.hand[id].phase == phase && op != id
    && id in w.mem.live && id in w.mem.pending && w.mem.pending[id] == reply && Terminal(reply.state)
    && ValidateTransition(w.mem.live[id].state, reply.state).None?
  }

  lemma EndsRelease(s: Setup, w: World, id: Id, op: Id, reply: Reply)
    requires Ending(w, id, op, Releasing(reply), reply) && Owns(w.mem, op) && w.mem.releasing != Some(op)
    ensures var v := Apply(s, w, HandoffRelease(id));
            && Enabled(s, w, HandoffRelease(id)) && Ending(v, id, op, Deleting(reply), reply)
            && v.mem == w.mem.(releasing := Some(op), locked := false, holder := None, owner := LockNone)
            && v.store == w.store
  {
  }

  lemma EndsRecord(s: Setup, w: World, id: Id, op: Id, reply: Reply)
    requires Ending(w, id, op, Deleting(reply), reply)
    ensures var v := Apply(s, w, HandoffDelete(id, true));
            && Enabled(s, w, HandoffDelete(id, true)) && Ending(v, id, op, Clearing(reply), reply)
            && v.mem == w.mem && v.store == w.store - {op}
  {
  }

  lemma EndsMark(s: Setup, w: World, id: Id, op: Id, reply: Reply)
    requires Ending(w, id, op, Clearing(reply), reply) && w.mem.releasing == Some(op)
    ensures var v := Apply(s, w, HandoffClear(id));
            && Enabled(s, w, HandoffClear(id)) && Ending(v, id, op, Finishing(reply), reply)
            && v.mem == w.mem.(releasing := None) && v.store == w.store
  {
  }

  lemma EndsTransaction(s: Setup, w: World, id: Id, op: Id, reply: Reply)
    requires Ending(w, id, op, Finishing(reply), reply) && !w.mem.locked && w.mem.holder == None
    ensures var v := Apply(s, w, HandoffFinish(id));
            && Enabled(s, w, HandoffFinish(id)) && id !in v.hand && v.store == w.store
            && !v.mem.locked && v.mem.holder == None && v.mem.releasing == w.mem.releasing
            && id !in v.mem.live && id in v.mem.retired
            && v.mem.retired[id].state == reply.state && v.mem.retired[id].payload == reply.payload
  {
    hide CacheSet, TTLForMethod;
  }

  /**
   * A reply that arrived while the record of its upgrade was saved: four steps free the lock again, delete the
   * record, and end the transaction with that reply.
   */
  lemma BufferedReplyEndsHandoff(s: Setup, w: World, id: Id, op: Id, reply: Reply) returns (run: seq<Step>, v: World)
    requires Ending(w, id, op, Releasing(reply), reply) && Owns(w.mem, op) && w.mem.releasing != Some(op)
    ensures run == [HandoffRelease(id), HandoffDelete(id, true), HandoffClear(id), HandoffFinish(id)]
    ensures ValidRun(s, w, run) && Final(s, w, run) == v
    ensures id !in v.hand && op !in v.store && !v.mem.locked && v.mem.holder == None && v.mem.releasing == None
    ensures id !in v.mem.live && id in v.mem.retired
    ensures v.mem.retired[id].state == reply.state && v.mem.retired[id].payload == reply.payload
  {
    hide ValidRun, Final, Apply, Enabled, Ending;
    EndsRelease(s, w, id, op, reply);
    var a := Apply(s, w, HandoffRelease(id));
    EndsRecord(s, a, id, op, reply);
    var b := Apply(s, a, HandoffDelete(id, true));
    EndsMark(s, b, id, op, reply);
    var c := Apply(s, b, HandoffClear(id));
    EndsTransaction(s, c, id, op, reply);
    TwoSteps(s, w, HandoffRelease(id), HandoffDelete(id, true));
    TwoSteps(s, b, HandoffClear(id), HandoffFinish(id));
    RunsCompose(s, w, [HandoffRelease(id), HandoffDelete(id, true)], [HandoffClear(id), HandoffFinish(id)]);
    run := [HandoffRelease(id), HandoffDelete(id, true)] + [HandoffClear(id), HandoffFinish(id)];
    v := Apply(s, c, HandoffFinish(id));
  }

  // ----- a Save that comes back too late -----

  /** One record in the store, whose Save is still out, and an idle sweeper. */
  ghost predicate SaveIsOut(w: World, id: Id, rec: Rec, response: Bytes) {
    && w.store == map[rec.op := rec] && w.sweep == Idle && rec.active && rec.op != id
    && w.hand == map[id := Handoff(rec.op, Some(response), Saving(rec, true))]
  }

  lemma OnlyRecord(rec: Rec, limit: int)
    requires rec.active
    ensures ActiveQuery(map[rec.op := rec], limit, [rec])
  {
  }

  lemma ReadsAndStarts(s: Setup, w: World, rec: Rec)
    requires w.sweep == Idle && ActiveQuery(w.store, s.cfg.recordLimit, [rec])
    ensures Enabled(s, w, SweepRead([rec])) && Apply(s, w, SweepRead([rec])) == w.(sweep := Loaded([rec]))
    ensures var v := w.(sweep := Loaded([rec]));
            Enabled(s, v, SweepClock) && Apply(s, v, SweepClock) == w.(sweep := Running([rec], w.now, Checking))
  {
    hide ActiveQuery;
  }

  lemma ChecksAndRemoves(s: Setup, w: World, rec: Rec)
    requires w.sweep == Running([rec], w.now, Checking) && w.mem.holder != Some(rec.op)
    requires Compatible(s.cfg.bootID, rec) && Expired(s.cfg.sweeperTTL, rec, w.now)
    ensures Enabled(s, w, SweepCheck) && Apply(s, w, SweepCheck) == w.(sweep := Running([rec], w.now, Removing))
    ensures var v := w.(sweep := Running([rec], w.now, Removing));
            Enabled(s, v, SweepRemove(true)) &&
                Apply(s, v, SweepRemove(true)) == w.(sweep := Idle, store := w.store - {rec.op})
  {
    hide Compatible, Expired;
  }

  /** Waiting, reading, looking and removing: five steps take the record away under the running Save. */
  lemma SweepsUnderSave(s: Setup, w: World, before: seq<Step>, u: World, id: Id, rec: Rec, response: Bytes)
    returns (run: seq<Step>, v: World)
    requires Reaches(s, w, before, u) && SaveIsOut(u, id, rec, response) && u.mem.holder == Some(id)
    requires Compatible(s.cfg.bootID, rec)
    ensures |run| == |before| + 5 && Reaches(s, w, run, v)
    ensures v == u.(now := v.now, store := map[])
  {
    hide Apply, Enabled, Reaches, ActiveQuery, Compatible, Expired;
    var t := ExpiryOf(s.cfg.sweeperTTL, rec, u.now);
    TimePasses(s, u, t);
    Extend(s, w, before, u, Tick(t));
    run, v := before + [Tick(t)], u.(now := t);
    OnlyRecord(rec, s.cfg.recordLimit);
    ReadsAndStarts(s, v, rec);
    Extend(s, w, run, v, SweepRead([rec]));
    run, v := run + [SweepRead([rec])], v.(sweep := Loaded([rec]));
    Extend(s, w, run, v, SweepClock);
    run, v := run + [SweepClock], v.(sweep := Running([rec], t, Checking));
    ChecksAndRemoves(s, v, rec);
    Extend(s, w, run, v, SweepCheck);
    run, v := run + [SweepCheck], v.(sweep := Running([rec], t, Removing));
    Extend(s, w, run, v, SweepRemove(true));
    run, v := run + [SweepRemove(true)], v.(sweep := Idle, store := v.store - {rec.op});
  }

  /**
   * The Save of an upgrade's record that returns after the sweeper removed the expired record: from every
   * process with a free lock and an empty store, fifteen steps to an operation that owns the lock without a
   * record, and then owns it in every later state of the process.
   */
  lemma LateSaveStrandsLock(s: Setup, before: map<Id, Rec>, ops: seq<Rec>, w: World, f: Inbound, id: Id, op: Id,
                            response: Bytes)
    returns (run: seq<Step>, v: World)
    requires Started(s, before, ops, w) && !w.mem.locked && GoodUpgrade(s, f) && s.cfg.maxConcurrent >= 1
    requires id !in w.used && op !in w.used && id != op && response != [] && w.store == map[]
    ensures |run| == 15 && ValidRun(s, w, run) && Final(s, w, run) == v
    ensures Owns(v.mem, op) && op !in v.store
    ensures forall later :: ValidRun(s, v, later) ==> Owns(Final(s, v, later).mem, op)
  {
    hide Inv, GoodUpgrade, Started, On, ValidRun, Final, Apply, Enabled, Reachable, Compatible, Stuck;
    FreshProcess(s, before, ops, w);
    run, v := ReachesInFlight(s, w, f, id);
    run, v := ReachesWritten(s, w, run, v, f, id, op, response);
    var rec := v.store[op];
    SameBoot(s, rec);
    HeldBy(v, f, id);
    var was := v;
    run, v := SweepsUnderSave(s, w, run, v, id, rec, response);
    StillOn(was, v, f, id);
    Saves(s, v, f, id, response);
    Extend(s, w, run, v, HandoffSaved(id));
    run, v := run + [HandoffSaved(id)], Apply(s, v, HandoffSaved(id));
    StartKeeps(s, before, ops, w);
    RunKeeps(s, w, run);
    NothingKnows(v, op);
    forall later | ValidRun(s, v, later) ensures Owns(Final(s, v, later).mem, op) {
      StuckRun(s, v, later, op);
      StuckOwns(Final(s, v, later), op);
    }
  }

  lemma SameBoot(s: Setup, rec: Rec)
    requires rec.boot == s.cfg.bootID
    ensures Compatible(s.cfg.bootID, rec)
  {
  }

  lemma HeldBy(w: World, f: Inbound, id: Id)
    requires On(w, id, f, InFlight, Finished, TransferPending)
    ensures w.mem.holder == Some(id)
  {
  }

  lemma StillOn(w: World, v: World, f: Inbound, id: Id)
    requires On(w, id, f, InFlight, Finished, TransferPending) && v == w.(now := v.now, store := v.store)
    ensures On(v, id, f, InFlight, Finished, TransferPending)
  {
  }

  lemma NothingKnows(w: World, op: Id)
    requires Owns(w.mem, op) && op !in w.store && w.hand == map[] && w.sweep == Idle
    ensures Stuck(w, op)
  {
  }

  lemma StuckOwns(w: World, op: Id)
    requires Stuck(w, op)
    ensures Owns(w.mem, op)
  {
  }

  // ----- a reply that comes too early -----

  lemma RepliesEarly(s: Setup, w: World, f: Inbound, id: Id, response: Bytes)
    requires On(w, id, f, Created, Buffering, OwnedByRPC)
    ensures Complete(s.cfg, w.now, w.mem, id, Some(response)).1.None?
    ensures var step := ResultComplete(id, Some(response));
            var v := Apply(s, w, step);
            && Enabled(s, w, step) && id in v.mem.pending && v.mem.pending[id] == Reply(Some(response), Completed)
            && id in v.mem.live && v.mem.live[id].state.Created? && !v.mem.live[id].handoff
  {
  }

  /**
   * The reply of a device that answers before its command was published is accepted, buffered and lost:
   * three steps from every process whose lock is free.
   */
  lemma EarlyReplyCanBeLost(s: Setup, before: map<Id, Rec>, ops: seq<Rec>, w: World, f: Inbound, id: Id,
                            response: Bytes, failure: Option<Bytes>)
    returns (u: World, v: World)
    requires Started(s, before, ops, w) && !w.mem.locked && GoodUpgrade(s, f) && s.cfg.maxConcurrent >= 1 &&
               id !in w.used
    ensures var admit, reply, fail := Frame(f, false, id, []), ResultComplete(id, Some(response)),
              ResultFail(id, failure);
            && ValidRun(s, w, [admit, reply]) && Final(s, w, [admit, reply]) == u
            && ValidRun(s, w, [admit, reply] + [fail]) && Final(s, w, [admit, reply] + [fail]) == v
    ensures id in u.mem.pending && u.mem.pending[id] == Reply(Some(response), Completed)
    ensures EndedWith(v, id, Reply(failure, Failed)) && !Survives(v, id, Reply(Some(response), Completed))
  {
    hide Inv, GoodUpgrade, Started, On, ValidRun, Final, Apply, Enabled;
    FreshProcess(s, before, ops, w);
    StartKeeps(s, before, ops, w);
    Admits(s, w, f, id);
    var a := Apply(s, w, Frame(f, false, id, []));
    RepliesEarly(s, a, f, id, response);
    TwoSteps(s, w, Frame(f, false, id, []), ResultComplete(id, Some(response)));
    u := Apply(s, a, ResultComplete(id, Some(response)));
    RunKeeps(s, w, [Frame(f, false, id, []), ResultComplete(id, Some(response))]);
    UndecidedCanBeReplaced(s, u, id, failure);
    v := Apply(s, u, ResultFail(id, failure));
    OneStep(s, u, ResultFail(id, failure));
    RunsCompose(s, w, [Frame(f, false, id, []), ResultComplete(id, Some(response))], [ResultFail(id, failure)]);
    StepKeeps(s, u, ResultFail(id, failure));
    RetiredNotLive(s, v, id);
  }
}
