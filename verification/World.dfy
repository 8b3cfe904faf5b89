/**
 * The request manager among its concurrent callers: frame reader, one executor goroutine per
 * transaction (cmd/ucentral-client/handler.go, executeTransaction), result workers
 * (cmd/ucentral-client/main.go, processNATSResult), response timers, lock handoffs that write to
 * the store outside the mutex, and the orphan sweeper. A step is one critical section of m.mu or
 * one effect on the store; a failing Save or Delete may still have taken effect.
 */
module World {
  import opened Common
  import opened Transactions
  import opened Manager
  import opened OperationStore
  import opened FrameHandler

  /** The next call of a transaction's executor goroutine. */
  datatype Pc = Buffering | Preparing | Publishing | Dispatching | Marking | Failing | Finished

  /** Progress of one RespondAndRetain call that passed its first critical section. */
  datatype Phase =
    | Stamping
    | Saving(rec: Rec, written: bool)
    | Releasing(reply: Reply)
    | Deleting(reply: Reply)
    | Clearing(reply: Reply)
    | Finishing(reply: Reply)

  datatype Handoff = Handoff(op: Id, response: Option<Bytes>, phase: Phase)

  /** What the sweeper does next with the head of its list. */
  datatype SweepPhase = Checking | Removing | Freeing | FreedDeleting | FreedClearing

  datatype Sweep = Idle | Loaded(ops: seq<Rec>) | Running(ops: seq<Rec>, at: Time, phase: SweepPhase)

  /**
   * `recs` remembers the record of every operation started or recovered in this run, `used` every
   * identifier drawn so far, and `frameOf` the frame that led to each transaction.
   */
  datatype World = World(
    now: Time,
    mem: Mem,
    exec: map<Id, Pc>,
    hand: map<Id, Handoff>,
    sweep: Sweep,
    store: map<Id, Rec>,
    recs: map<Id, Rec>,
    used: set<Id>,
    frames: nat,
    frameOf: map<Id, nat>)

  datatype Step =
    | Tick(now: Time)
    | Frame(f: Inbound, degraded: bool, id: Id, text: Bytes)
    | ExecBuffer(id: Id, full: bool)
    | ExecPreparing(id: Id)
    | ExecPublishing(id: Id)
    | ExecDispatch(id: Id, ok: bool)
    | ExecInFlight(id: Id)
    | ExecFail(id: Id, text: Bytes)
    | ResultComplete(id: Id, response: Option<Bytes>)
    | ResultFail(id: Id, response: Option<Bytes>)
    | ResultRetain(id: Id, op: Id, response: Option<Bytes>)
    | TimerFires(id: Id)
    | DispatchTimerFires(id: Id)
    | HandoffStamp(id: Id)
    | HandoffWrite(id: Id)
    | HandoffSaved(id: Id)
    | HandoffFailed(id: Id)
    | HandoffRelease(id: Id)
    | HandoffDelete(id: Id, removed: bool)
    | HandoffClear(id: Id)
    | HandoffFinish(id: Id)
    | SweepRead(ops: seq<Rec>)
    | SweepClock
    | SweepCheck
    | SweepRemove(removed: bool)
    | SweepFree
    | SweepFreedDelete(removed: bool)
    | SweepFreedClear
    | CacheSweeps

  datatype Setup = Setup(cfg: Config, limits: Limits)

  // ----- enabling -----

  predicate AtPc(w: World, id: Id, pc: Pc) {
    id in w.exec && w.exec[id] == pc
  }

  predicate Sweeping(w: World, phase: SweepPhase) {
    w.sweep.Running? && w.sweep.ops != [] && w.sweep.phase == phase
  }

  predicate OfHandoff(step: Step) {
    step.HandoffStamp? || step.HandoffWrite? || step.HandoffSaved? || step.HandoffFailed? ||
    step.HandoffRelease? || step.HandoffDelete? || step.HandoffClear? || step.HandoffFinish?
  }

  predicate OfSweeper(step: Step) {
    step.SweepRead? || step.SweepClock? || step.SweepCheck? || step.SweepRemove? ||
    step.SweepFree? || step.SweepFreedDelete? || step.SweepFreedClear?
  }

  predicate OfExecutor(step: Step) {
    step.ExecBuffer? || step.ExecPreparing? || step.ExecPublishing? || step.ExecDispatch? ||
    step.ExecInFlight? || step.ExecFail?
  }

  ghost predicate ExecutorEnabled(w: World, step: Step)
    requires OfExecutor(step)
  {
    match step
    case ExecBuffer(id, _) => AtPc(w, id, Buffering)
    case ExecPreparing(id) => AtPc(w, id, Preparing)
    case ExecPublishing(id) => AtPc(w, id, Publishing)
    case ExecDispatch(id, _) => AtPc(w, id, Dispatching)
    case ExecInFlight(id) => AtPc(w, id, Marking)
    case ExecFail(id, _) => AtPc(w, id, Failing)
  }

  ghost predicate HandoffEnabled(w: World, step: Step)
    requires OfHandoff(step)
  {
    step.id in w.hand &&
    var phase := w.hand[step.id].phase;
    match step
    case HandoffStamp(_) => phase.Stamping?
    case HandoffWrite(_) => phase.Saving? && !phase.written
    case HandoffSaved(_) => phase.Saving? && phase.written
    case HandoffFailed(_) => phase.Saving?
    case HandoffRelease(_) => phase.Releasing?
    case HandoffDelete(_, _) => phase.Deleting?
    case HandoffClear(_) => phase.Clearing?
    case HandoffFinish(_) => phase.Finishing?
  }

  ghost predicate SweeperEnabled(limit: int, w: World, step: Step)
    requires OfSweeper(step)
  {
    match step
    case SweepRead(ops) => w.sweep.Idle? && ActiveQuery(w.store, limit, ops)
    case SweepClock => w.sweep.Loaded?
    case SweepCheck => Sweeping(w, Checking)
    case SweepRemove(_) => Sweeping(w, Removing)
    case SweepFree => Sweeping(w, Freeing)
    case SweepFreedDelete(_) => Sweeping(w, FreedDeleting)
    case SweepFreedClear => Sweeping(w, FreedClearing)
  }

  ghost predicate EventEnabled(w: World, step: Step) {
    match step
    case Tick(t) => w.now <= t
    case Frame(_, _, id, _) => id !in w.used
    case ResultRetain(_, op, _) => op !in w.used
    case TimerFires(id) => id in w.mem.live ==> w.mem.live[id].timedOnce
    case _ => true
  }

  /**
   * When a step may happen: program counters and phases for the goroutines, fresh identifiers,
   * a clock that never goes back, and a timer callback only after a timer was armed.
   */
  ghost predicate Enabled(s: Setup, w: World, step: Step) {
    if OfExecutor(step) then ExecutorEnabled(w, step)
    else if OfHandoff(step) then HandoffEnabled(w, step)
    else if OfSweeper(step) then SweeperEnabled(s.cfg.recordLimit, w, step)
    else EventEnabled(w, step)
  }

  // ----- effects -----

  /** Answer frame number `w.frames` at once. */
  function PushForFrame(w: World, session: string, text: Bytes): World {
    w.(mem := w.mem.(pushed := w.mem.pushed + [Push(FromFrame(w.frames), session, text)]), frames := w.frames + 1)
  }

  /** What follows CreateTransaction's result: start the executor, replay a cached response, or refuse. */
  function OnAdmission(w: World, f: Inbound, respond: bool, id: Id, text: Bytes, m: Mem, r: Result<Id, Error>)
    : (v: World)
    ensures v == w.(mem := v.mem, exec := v.exec, used := v.used, frameOf := v.frameOf, frames := w.frames + 1)
    ensures w.used <= v.used
  {
    match r
    case Ok(_) =>
      w.(mem := m, exec := w.exec[id := Buffering], used := w.used + {id},
         frameOf := w.frameOf[id := w.frames], frames := w.frames + 1)
    case Err(e) =>
      if e.CachedResponse? then PushForFrame(w, f.session, e.payload)
      else if respond then PushForFrame(w, f.session, text)
      else w.(frames := w.frames + 1)
  }

  /** The tail of HandleFrame. */
  function AdmitFrame(s: Setup, w: World, f: Inbound, respond: bool, changing: bool, id: Id, text: Bytes): (v: World)
    requires f.Request?
    ensures v == w.(mem := v.mem, exec := v.exec, used := v.used, frameOf := v.frameOf, frames := w.frames + 1)
    ensures w.used <= v.used
  {
    var r := CreateTransaction(s.cfg, w.now, w.mem, id, f.session, f.id, respond, f.command, f.timeout, changing);
    OnAdmission(w, f, respond, id, text, r.0, r.1)
  }

  function ReceiveFrame(s: Setup, w: World, f: Inbound, degraded: bool, id: Id, text: Bytes): (v: World)
    ensures v == w.(mem := v.mem, exec := v.exec, used := v.used, frameOf := v.frameOf, frames := w.frames + 1)
    ensures w.used <= v.used
  {
    match Decide(s.limits, degraded, f)
    case Ignore => w.(frames := w.frames + 1)
    case Answer => PushForFrame(w, f.session, text)
    case Admit(respond, changing) => AdmitFrame(s, w, f, respond, changing, id, text)
  }

  /** An executor call with result `r`: go on, or to the failure path. */
  function ExecCall(w: World, id: Id, r: (Mem, Option<Error>), next: Pc): World {
    w.(mem := r.0, exec := w.exec[id := if r.1.None? then next else Failing])
  }

  function SetPhase(w: World, id: Id, phase: Phase): (v: World)
    requires id in w.hand
    ensures v == w.(hand := v.hand)
  {
    w.(hand := w.hand[id := w.hand[id].(phase := phase)])
  }

  function Resume(w: World, id: Id, r: (Mem, Resumption)): World
    requires id in w.hand
  {
    var n := w.(mem := r.0);
    match r.1
    case Returned(_) => n.(hand := n.hand - {id})
    case MustRelease(reply) => SetPhase(n, id, Releasing(reply))
  }

  function DeleteRecord(w: World, op: Id, removed: bool): (v: World)
    ensures v == w.(store := v.store) && v.store.Keys <= w.store.Keys
  {
    if removed then w.(store := w.store - {op}) else w
  }

  /** The sweeper is done with the head of its list. */
  function NextRecord(w: World): (v: World)
    requires w.sweep.Running? && w.sweep.ops != []
    ensures v == w.(sweep := v.sweep)
  {
    w.(sweep := if |w.sweep.ops| == 1 then Idle else Running(w.sweep.ops[1..], w.sweep.at, Checking))
  }

  function SetSweep(w: World, phase: SweepPhase): (v: World)
    requires w.sweep.Running?
    ensures v == w.(sweep := v.sweep)
  {
    w.(sweep := w.sweep.(phase := phase))
  }

  /** The per-record decision of sweepOrphanedOperations, with its read of the lock state. */
  function CheckRecord(cfg: Config, w: World): (v: World)
    requires w.sweep.Running? && w.sweep.ops != []
    ensures v == w.(sweep := v.sweep)
  {
    var rec := w.sweep.ops[0];
    if !Compatible(cfg.bootID, rec) then SetSweep(w, Removing)
    else if Expired(cfg.sweeperTTL, rec, w.sweep.at) then
      SetSweep(w, if w.mem.holder == Some(rec.op) then Freeing else Removing)
    else if w.mem.owner.TransferPending? then NextRecord(w)
    else if w.mem.holder != Some(rec.op) then SetSweep(w, Removing)
    else NextRecord(w)
  }

  /** The worker's RespondAndRetain call, up to its first unlock. */
  function Retain(w: World, id: Id, op: Id, response: Option<Bytes>): (v: World)
    ensures v == w.(mem := v.mem, hand := v.hand, used := v.used) && w.used <= v.used
  {
    var (m, e) := BeginHandoff(w.mem, id);
    if e.Some? then w
    else w.(mem := m, hand := w.hand[id := Handoff(op, response, Stamping)], used := w.used + {op})
  }

  function StampHandoff(bootID: string, w: World, id: Id): World
    requires id in w.hand
  {
    var rec := Rec(w.hand[id].op, id, bootID, Some(Stamp(w.now)), true);
    SetPhase(w, id, Saving(rec, false)).(recs := w.recs[rec.op := rec])
  }

  /** The Save of a handoff takes effect. */
  function WriteHandoff(w: World, id: Id): World
    requires id in w.hand && w.hand[id].phase.Saving?
  {
    var rec := w.hand[id].phase.rec;
    SetPhase(w, id, Saving(rec, true)).(store := w.store[rec.op := rec])
  }

  function ReleaseHandoff(w: World, id: Id): World
    requires id in w.hand && w.hand[id].phase.Releasing?
  {
    var (m, e) := BeginRelease(w.mem, w.hand[id].op);
    var reply := w.hand[id].phase.reply;
    SetPhase(w.(mem := m), id, if e.None? then Deleting(reply) else Finishing(reply))
  }

  function DeleteHandoff(w: World, id: Id, removed: bool): World
    requires id in w.hand && w.hand[id].phase.Deleting?
  {
    SetPhase(DeleteRecord(w, w.hand[id].op, removed), id, Clearing(w.hand[id].phase.reply))
  }

  function ClearHandoff(w: World, id: Id): World
    requires id in w.hand && w.hand[id].phase.Clearing?
  {
    SetPhase(w.(mem := EndRelease(w.mem, w.hand[id].op)), id, Finishing(w.hand[id].phase.reply))
  }

  function FinishHandoff(cfg: Config, w: World, id: Id): World
    requires id in w.hand && w.hand[id].phase.Finishing?
  {
    w.(mem := Deliver(cfg, w.now, w.mem, id, w.hand[id].phase.reply).0, hand := w.hand - {id})
  }

  function StartSweep(w: World): (v: World)
    requires w.sweep.Loaded?
    ensures v == w.(sweep := v.sweep)
  {
    w.(sweep := if w.sweep.ops == [] then Idle else Running(w.sweep.ops, w.now, Checking))
  }

  function FreeLock(w: World): (v: World)
    requires w.sweep.Running? && w.sweep.ops != []
    ensures v == w.(sweep := v.sweep, mem := v.mem)
    ensures v.mem == w.mem || v.mem == BeginRelease(w.mem, w.sweep.ops[0].op).0
  {
    var (m, e) := BeginRelease(w.mem, w.sweep.ops[0].op);
    if e.None? then SetSweep(w.(mem := m), FreedDeleting) else NextRecord(w)
  }

  function ExecutorApply(cfg: Config, w: World, step: Step): World
    requires OfExecutor(step) && ExecutorEnabled(w, step)
  {
    match step
    case ExecBuffer(id, full) => w.(exec := w.exec[id := if full then Failing else Preparing])
    case ExecPreparing(id) => ExecCall(w, id, MarkPreparingDispatch(w.mem, id), Publishing)
    case ExecPublishing(id) => ExecCall(w, id, MarkPendingPublish(w.mem, id), Dispatching)
    case ExecDispatch(id, ok) => w.(exec := w.exec[id := if ok then Marking else Failing])
    case ExecInFlight(id) => w.(mem := MarkInFlight(cfg, w.now, w.mem, id).0, exec := w.exec[id := Finished])
    case ExecFail(id, text) => w.(mem := Fail(cfg, w.now, w.mem, id, Some(text)).0, exec := w.exec[id := Finished])
  }

  function HandoffApply(cfg: Config, w: World, step: Step): World
    requires OfHandoff(step) && HandoffEnabled(w, step)
  {
    match step
    case HandoffStamp(id) => StampHandoff(cfg.bootID, w, id)
    case HandoffWrite(id) => WriteHandoff(w, id)
    case HandoffSaved(id) => Resume(w, id, ResumeSaved(cfg, w.now, w.mem, id, w.hand[id].op, w.hand[id].response))
    case HandoffFailed(id) => Resume(w, id, ResumeFailed(cfg, w.now, w.mem, id))
    case HandoffRelease(id) => ReleaseHandoff(w, id)
    case HandoffDelete(id, removed) => DeleteHandoff(w, id, removed)
    case HandoffClear(id) => ClearHandoff(w, id)
    case HandoffFinish(id) => FinishHandoff(cfg, w, id)
  }

  function SweeperApply(cfg: Config, w: World, step: Step): World
    requires OfSweeper(step) && SweeperEnabled(cfg.recordLimit, w, step)
  {
    match step
    case SweepRead(ops) => w.(sweep := Loaded(ops))
    case SweepClock => StartSweep(w)
    case SweepCheck => CheckRecord(cfg, w)
    case SweepRemove(removed) => NextRecord(DeleteRecord(w, w.sweep.ops[0].op, removed))
    case SweepFree => FreeLock(w)
    case SweepFreedDelete(removed) => SetSweep(DeleteRecord(w, w.sweep.ops[0].op, removed), FreedClearing)
    case SweepFreedClear => NextRecord(w.(mem := EndRelease(w.mem, w.sweep.ops[0].op)))
  }

  /** Clock, frames, results, timers and the cache sweeper. */
  function EventApply(s: Setup, w: World, step: Step): World
    requires EventEnabled(w, step)
  {
    match step
    case Tick(t) => w.(now := t)
    case Frame(f, degraded, id, text) => ReceiveFrame(s, w, f, degraded, id, text)
    case ResultComplete(id, response) => w.(mem := Complete(s.cfg, w.now, w.mem, id, response).0)
    case ResultFail(id, response) => w.(mem := Fail(s.cfg, w.now, w.mem, id, response).0)
    case ResultRetain(id, op, response) => Retain(w, id, op, response)
    case TimerFires(id) => w.(mem := Timeout(s.cfg, w.now, w.mem, id).0)
    case DispatchTimerFires(id) => w.(mem := DispatchTimeoutFail(s.cfg, w.now, w.mem, id))
    case CacheSweeps => w.(mem := w.mem.(cache := CacheSweep(w.mem.cache, w.now)))
    case _ => w
  }

  function Apply(s: Setup, w: World, step: Step): World
    requires Enabled(s, w, step)
  {
    if OfExecutor(step) then ExecutorApply(s.cfg, w, step)
    else if OfHandoff(step) then HandoffApply(s.cfg, w, step)
    else if OfSweeper(step) then SweeperApply(s.cfg, w, step)
    else EventApply(s, w, step)
  }

  // ----- start of a process and its runs -----

  /** Start: scan the store's answer, take the lock for the first recoverable record, drop stale boots. */
  function Recovered(cfg: Config, now: Time, ops: seq<Rec>): Mem {
    match FirstRecoverable(cfg.bootID, cfg.sweeperTTL, now, ops)
    case None => Blank()
    case Some(rec) => Blank().(locked := true, holder := Some(rec.op), owner := OwnedByOperation)
  }

  /** The records Start deletes; any of the deletions may fail. */
  predicate StaleBoot(cfg: Config, ops: seq<Rec>, op: Id) {
    exists i :: 0 <= i < |ops| && ops[i].op == op && cfg.bootID != "" && ops[i].boot != "" && ops[i].boot != cfg.bootID
  }

  /** A process that just ran Start over `before`, or whose Start could not read the store (`ops` empty). */
  ghost predicate Started(s: Setup, before: map<Id, Rec>, ops: seq<Rec>, w: World) {
    && (ops == [] || ActiveQuery(before, s.cfg.recordLimit, ops))
    && (forall op :: op in before ==> before[op].op == op)
    && (forall op :: op in w.store ==> op in before && w.store[op] == before[op])
    && (forall op :: op in before && op !in w.store ==> StaleBoot(s.cfg, ops, op))
    && before.Keys <= w.used
    && w.mem == Recovered(s.cfg, w.now, ops)
    && w.exec == map[] && w.hand == map[] && w.sweep == Idle && w.frames == 0 && w.frameOf == map[]
    && w.recs == match FirstRecoverable(s.cfg.bootID, s.cfg.sweeperTTL, w.now, ops)
                 case None => map[]
                 case Some(rec) => map[rec.op := rec]
  }

  ghost predicate ValidRun(s: Setup, w: World, run: seq<Step>)
    decreases |run|
  {
    run == [] || (Enabled(s, w, run[0]) && ValidRun(s, Apply(s, w, run[0]), run[1..]))
  }

  ghost function Final(s: Setup, w: World, run: seq<Step>): World
    requires ValidRun(s, w, run)
    decreases |run|
  {
    if run == [] then w else Final(s, Apply(s, w, run[0]), run[1..])
  }

  /** Some process start and some interleaving lead to `w`. */
  ghost predicate Reachable(s: Setup, w: World) {
    exists before, ops, w0, run :: Leads(s, before, ops, w0, run, w)
  }

  ghost predicate Leads(s: Setup, before: map<Id, Rec>, ops: seq<Rec>, w0: World, run: seq<Step>, w: World) {
    Started(s, before, ops, w0) && ValidRun(s, w0, run) && Final(s, w0, run) == w
  }

  // ----- putting runs together -----

  lemma {:induction false} RunsCompose(s: Setup, w: World, a: seq<Step>, b: seq<Step>)
    requires ValidRun(s, w, a) && ValidRun(s, Final(s, w, a), b)
    ensures ValidRun(s, w, a + b) && Final(s, w, a + b) == Final(s, Final(s, w, a), b)
    decreases |a|
  {
    hide Enabled, Apply;
    if a == [] {
      assert a + b == b;
    } else {
      assert (a + b)[0] == a[0] && (a + b)[1..] == a[1..] + b;
      RunsCompose(s, Apply(s, w, a[0]), a[1..], b);
    }
  }

  lemma OneStep(s: Setup, w: World, step: Step)
    requires Enabled(s, w, step)
    ensures ValidRun(s, w, [step]) && Final(s, w, [step]) == Apply(s, w, step)
  {
    hide Enabled, Apply;
    var rest: seq<Step> := [];
    assert [step][1..] == rest;
    assert ValidRun(s, Apply(s, w, step), rest);
  }

  lemma TwoSteps(s: Setup, w: World, a: Step, b: Step)
    requires Enabled(s, w, a) && Enabled(s, Apply(s, w, a), b)
    ensures ValidRun(s, w, [a, b]) && Final(s, w, [a, b]) == Apply(s, Apply(s, w, a), b)
  {
    hide Enabled, Apply;
    OneStep(s, w, a);
    OneStep(s, Apply(s, w, a), b);
    RunsCompose(s, w, [a], [b]);
    assert [a] + [b] == [a, b];
  }
}
