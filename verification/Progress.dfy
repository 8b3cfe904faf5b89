/** How far each transaction is from its end, and who gets it there. */
module Progress {
  import opened Common
  import opened Transactions
  import opened Manager
  import opened ManagerInvariants
  import opened OperationStore
  import opened FrameHandler
  import opened World
  import opened WorldInvariants
  import opened WorldSteps
  import opened WorldEffects
  import opened RequestTheorems

  ghost function ExecWork(pc: Pc): nat {
    match pc
    case Buffering => 6
    case Preparing => 5
    case Publishing => 4
    case Dispatching => 3
    case Marking => 2
    case Failing => 1
    case Finished => 0
  }

  ghost function HandWork(phase: Phase): nat {
    match phase
    case Stamping => 7
    case Saving(_, written) => if written then 5 else 6
    case Releasing(_) => 4
    case Deleting(_) => 3
    case Clearing(_) => 2
    case Finishing(_) => 1
  }

  /** Steps the agents of transaction `id` can still take: executor, handoff, and one timer. */
  ghost function Work(w: World, id: Id): nat
    requires id in w.exec
  {
    1 + ExecWork(w.exec[id]) + if id in w.hand then HandWork(w.hand[id].phase) else 0
  }

  /** The goroutine of one transaction that takes the step. */
  ghost function Runner(step: Step): Option<Id> {
    if OfExecutor(step) || OfHandoff(step) || step.ResultRetain? then Some(step.id) else None
  }

  /** A step of an agent of `id`: its executor, its handoff, or its armed timer outside a handoff. */
  ghost predicate AgentStep(w: World, step: Step, id: Id) {
    || ((OfExecutor(step) || OfHandoff(step)) && step.id == id)
    || (step == TimerFires(id) && id in w.mem.live && !w.mem.live[id].handoff)
  }

  /** A handoff step moves only its own handoff: to a later phase, or to its end. */
  ghost predicate HandMoves(w: World, v: World, id: Id) {
    && id in w.hand
    && v.exec == w.exec
    && (v.hand == w.hand - {id} ||
        (id in v.hand && v.hand == w.hand[id := v.hand[id]] && HandWork(v.hand[id].phase) < HandWork(w.hand[id].phase)))
  }

  lemma HandoffMoves(s: Setup, w: World, step: Step)
    requires Enabled(s, w, step) && OfHandoff(step)
    ensures HandMoves(w, Apply(s, w, step), step.id)
  {
    hide ResumeSaved, ResumeFailed, DeleteRecord, BeginRelease, EndRelease, Deliver, Resume;
    if step.HandoffSaved? {
      ResumeMoves(w, step.id, ResumeSaved(s.cfg, w.now, w.mem, step.id, w.hand[step.id].op, w.hand[step.id].response));
    } else if step.HandoffFailed? {
      ResumeMoves(w, step.id, ResumeFailed(s.cfg, w.now, w.mem, step.id));
    } else if step.HandoffStamp? {
    } else if step.HandoffWrite? {
    } else if step.HandoffRelease? {
    } else {
      assert step.HandoffDelete? || step.HandoffClear? || step.HandoffFinish?;
    }
  }

  lemma ResumeMoves(w: World, id: Id, r: (Mem, Resumption))
    requires id in w.hand && w.hand[id].phase.Saving?
    ensures HandMoves(w, Resume(w, id, r), id)
  {
  }

  lemma SweeperWaits(s: Setup, w: World, step: Step)
    requires Enabled(s, w, step) && OfSweeper(step)
    ensures Apply(s, w, step).exec == w.exec && Apply(s, w, step).hand == w.hand
  {
    hide ActiveQuery, CheckRecord, NextRecord, SetSweep, StartSweep, DeleteRecord, FreeLock, EndRelease;
    if step.SweepRemove? {} else if step.SweepFreedDelete? {} else if step.SweepFreedClear? {}
  }

  lemma FrameWaits(s: Setup, w: World, f: Inbound, degraded: bool, new_: Id, text: Bytes, id: Id)
    requires new_ !in w.used && id in w.used && id in w.exec
    ensures var v := ReceiveFrame(s, w, f, degraded, new_, text);
              id in v.exec && v.exec[id] == w.exec[id] && v.hand == w.hand
  {
    hide CreateTransaction, Decide;
    match Decide(s.limits, degraded, f)
    case Ignore =>
    case Answer =>
    case Admit(respond, changing) =>
      assert id != new_;
  }

  lemma EventWaits(s: Setup, w: World, step: Step, id: Id)
    requires Enabled(s, w, step) && Runner(step) != Some(id) && id in w.exec && id in w.used
    requires !OfHandoff(step) && !OfSweeper(step)
    ensures Undisturbed(w, Apply(s, w, step), id)
  {
    hide BeginHandoff, Conclude, Complete, DispatchTimeoutFail, Timeout, ReceiveFrame, Advance, MarkInFlight;
    if step.Frame? {
      FrameWaits(s, w, step.f, step.degraded, step.id, step.text, id);
    } else if OfExecutor(step) {
    } else if step.ResultRetain? {
    } else {
      assert !step.Frame?;
    }
  }

  ghost predicate Undisturbed(w: World, v: World, id: Id) {
    && id in w.exec && id in v.exec && v.exec[id] == w.exec[id]
    && (id in v.hand <==> id in w.hand) && (id in w.hand ==> v.hand[id] == w.hand[id])
  }

  /** The executor and the handoff of a transaction move only by their own steps. */
  lemma OthersWait(s: Setup, w: World, step: Step, id: Id)
    requires Enabled(s, w, step) && Runner(step) != Some(id) && id in w.exec && id in w.used
    ensures Undisturbed(w, Apply(s, w, step), id)
  {
    hide Apply, Enabled, HandWork;
    if OfHandoff(step) {
      HandoffMoves(s, w, step);
    } else if OfSweeper(step) {
      SweeperWaits(s, w, step);
    } else {
      EventWaits(s, w, step, id);
    }
  }

  /** Every step of an agent of a live transaction finishes it or leaves its agents less to do. */
  lemma AgentProgress(s: Setup, w: World, step: Step, id: Id)
    requires Inv(s, w) && Enabled(s, w, step) && id in w.mem.live && AgentStep(w, step, id)
    ensures var v := Apply(s, w, step); id in v.exec && (id in v.mem.live ==> Work(v, id) < Work(w, id))
  {
    hide Inv, MemInv, BuffersAgree, TimersAgree, Apply, Enabled, TimerAgrees, PcAgrees, ExecWork;
    LiveFacts(s, w, id);
    if OfExecutor(step) {
      ExecutorProgress(s, w, step);
    } else if OfHandoff(step) {
      HandoffMoves(s, w, step);
    } else {
      TimerProgress(s, w, id);
    }
  }

  lemma TimerProgress(s: Setup, w: World, id: Id)
    requires Inv(s, w) && Enabled(s, w, TimerFires(id)) && id in w.mem.live && !w.mem.live[id].handoff
    ensures id !in Apply(s, w, TimerFires(id)).mem.live && Apply(s, w, TimerFires(id)).exec == w.exec
  {
    hide Inv, Timeout;
    TimerEnds(s, w, id);
  }

  lemma ExecutorProgress(s: Setup, w: World, step: Step)
    requires Enabled(s, w, step) && OfExecutor(step)
    ensures var v := Apply(s, w, step); step.id in v.exec && Work(v, step.id) < Work(w, step.id)
  {
    hide Advance, MarkInFlight, Conclude;
  }

  lemma TimerEnds(s: Setup, w: World, id: Id)
    requires Inv(s, w) && id in w.mem.live && !w.mem.live[id].handoff && w.mem.live[id].timedOnce
    ensures id !in Timeout(s.cfg, w.now, w.mem, id).0.live
  {
    hide Inv, MemInv, Conclude;
    LiveFacts(s, w, id);
    ConcludeForm(s.cfg, w.now, w.mem, id, TimedOut, TimeoutResponse(s.cfg, w.mem.live[id]));
  }

  /** In this step store, dispatch buffer and dispatch, if they are asked, answer with success as `ok` says. */
  ghost predicate Answers(step: Step, ok: bool) {
    match step
    case ExecBuffer(_, full) => full == !ok
    case ExecDispatch(_, sent) => sent == ok
    case HandoffWrite(_) => ok
    case HandoffSaved(_) => ok
    case HandoffFailed(_) => !ok
    case HandoffDelete(_, removed) => removed == ok
    case _ => true
  }

  /** While a transaction is live some agent of it can take a step, whatever the store and the dispatch answer. */
  lemma AgentEnabled(s: Setup, w: World, id: Id, ok: bool) returns (step: Step)
    requires Reachable(s, w) && id in w.mem.live
    ensures Enabled(s, w, step) && AgentStep(w, step, id) && Answers(step, ok)
  {
    hide Inv, Enabled;
    ReachableInv(s, w);
    LiveHasAgent(s, w, id);
    if id in w.hand {
      step := HandoffNext(s, w, id, ok);
    } else {
      step := ExecutorNext(s, w, id, ok);
    }
  }

  lemma HandoffNext(s: Setup, w: World, id: Id, ok: bool) returns (step: Step)
    requires id in w.hand
    ensures Enabled(s, w, step) && OfHandoff(step) && step.id == id && Answers(step, ok)
  {
    match w.hand[id].phase
    case Stamping => step := HandoffStamp(id);
    case Saving(_, written) =>
      step := if !ok then HandoffFailed(id) else if written then HandoffSaved(id) else HandoffWrite(id);
    case Releasing(_) => step := HandoffRelease(id);
    case Deleting(_) => step := HandoffDelete(id, ok);
    case Clearing(_) => step := HandoffClear(id);
    case Finishing(_) => step := HandoffFinish(id);
  }

  lemma ExecutorNext(s: Setup, w: World, id: Id, ok: bool) returns (step: Step)
    requires Inv(s, w) && id in w.mem.live && id !in w.hand
    ensures Enabled(s, w, step) && AgentStep(w, step, id) && Answers(step, ok)
  {
    hide Inv, MemInv, BuffersAgree, TimersAgree;
    LiveFacts(s, w, id);
    LiveHasAgent(s, w, id);
    match w.exec[id]
    case Buffering => step := ExecBuffer(id, !ok);
    case Preparing => step := ExecPreparing(id);
    case Publishing => step := ExecPublishing(id);
    case Dispatching => step := ExecDispatch(id, ok);
    case Marking => step := ExecInFlight(id);
    case Failing => step := ExecFail(id, []);
    case Finished => step := TimerFires(id);
  }

  /** How many steps of a run are taken by agents of `id`. */
  ghost function AgentSteps(s: Setup, w: World, run: seq<Step>, id: Id): nat
    requires ValidRun(s, w, run)
    decreases |run|
  {
    if run == [] then 0
    else (if AgentStep(w, run[0], id) then 1 else 0) + AgentSteps(s, Apply(s, w, run[0]), run[1..], id)
  }

  /** How many upgrade results arrive for `id` during a run; each may start one more handoff. */
  ghost function Retains(run: seq<Step>, id: Id): nat
    decreases |run|
  {
    if run == [] then 0 else (if run[0].ResultRetain? && run[0].id == id then 1 else 0) + Retains(run[1..], id)
  }

  lemma WorkNeverGrows(s: Setup, w: World, step: Step, id: Id)
    requires Inv(s, w) && Enabled(s, w, step) && id in w.mem.live && !AgentStep(w, step, id)
    ensures var v := Apply(s, w, step);
            id in v.exec && (Work(v, id) <= Work(w, id) ||
                (step.ResultRetain? && step.id == id && Work(v, id) <= Work(w, id) + 7))
  {
    hide Inv, MemInv, BuffersAgree, TimersAgree, Apply, Enabled;
    LiveFacts(s, w, id);
    IdFacts(s, w, id);
    if step.ResultRetain? && step.id == id {
      RetainWork(s, w, step);
    } else {
      OthersWait(s, w, step, id);
    }
  }

  lemma RetainWork(s: Setup, w: World, step: Step)
    requires step.ResultRetain? && Enabled(s, w, step) && step.id in w.exec
    ensures var v := Apply(s, w, step); step.id in v.exec && Work(v, step.id) <= Work(w, step.id) + 7
  {
    hide BeginHandoff;
  }

  lemma WorkIsPositive(w: World, id: Id)
    requires id in w.exec
    ensures 1 <= Work(w, id) <= 14
  {
  }

  lemma {:induction false} AgentsFinishFrom(s: Setup, w: World, run: seq<Step>, id: Id)
    requires Inv(s, w) && ValidRun(s, w, run) && id in w.mem.live
    ensures id in w.exec
    ensures id in Final(s, w, run).mem.live ==> AgentSteps(s, w, run, id) + 1 <= Work(w, id) + 7 * Retains(run, id)
    decreases |run|
  {
    hide Inv, Enabled, Apply, AgentStep, Work, MemInv, BuffersAgree, TimersAgree;
    LiveFacts(s, w, id);
    WorkIsPositive(w, id);
    if run != [] {
      var v := Apply(s, w, run[0]);
      StepKeeps(s, w, run[0]);
      if id in v.mem.live {
        if AgentStep(w, run[0], id) {
          AgentProgress(s, w, run[0], id);
        } else {
          WorkNeverGrows(s, w, run[0], id);
        }
        AgentsFinishFrom(s, v, run[1..], id);
      } else {
        StepFollows(s, w, run[0], id);
        ExecGrows(s, v, id);
        LifecycleFrom(s, v, run[1..], id);
        RunKeeps(s, v, run[1..]);
        RetiredNotLive(s, Final(s, w, run), id);
      }
    }
  }

  /**
   * In every interleaving a transaction ends once its own agents have taken 13 steps, and 7 more
   * for every upgrade result that arrived for it, whatever the store and the dispatch answered.
   */
  lemma AgentsFinish(s: Setup, w: World, run: seq<Step>, id: Id)
    requires Reachable(s, w) && ValidRun(s, w, run) && id in w.mem.live
    requires AgentSteps(s, w, run, id) > 13 + 7 * Retains(run, id)
    ensures id !in Final(s, w, run).mem.live
  {
    hide Inv, Work, Enabled, Apply, AgentStep;
    ReachableInv(s, w);
    AgentsFinishFrom(s, w, run, id);
    WorkIsPositive(w, id);
  }
}
