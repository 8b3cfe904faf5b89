/** What a single step can change, and for whom. */
module WorldEffects {
  import opened Common
  import opened Transactions
  import opened CanonicalKeys
  import opened Manager
  import opened ManagerInvariants
  import opened OperationStore
  import opened FrameHandler
  import opened World
  import opened WorldInvariants
  import opened WorldSteps

  ghost predicate SameEntry(m: Mem, n: Mem, i: Id) {
    && (i in m.live <==> i in n.live) && (i in m.live ==> n.live[i] == m.live[i])
    && (i in m.retired <==> i in n.retired) && (i in m.retired ==> n.retired[i] == m.retired[i])
    && (i in m.pending <==> i in n.pending) && (i in m.pending ==> n.pending[i] == m.pending[i])
  }

  ghost predicate SameIdentity(a: Tx, b: Tx) {
    && a.key == b.key && a.respond == b.respond && a.session == b.session && a.command == b.command
    && a.cloudId == b.cloudId && a.timeout == b.timeout
  }

  /** Transaction `id` goes from `a` to `b` along the lifecycle. */
  ghost predicate Follows(a: Tx, b: Tx) {
    SameIdentity(a, b) && Rank(a.state) <= Rank(b.state) &&
        (b.state.TimedOut? && a.state != b.state ==> a.state.InFlight?)
  }

  /** At most the entries of transaction `id`, its cached response and its one push change. */
  ghost predicate Touches(m: Mem, n: Mem, id: Id) {
    && (forall i :: i != id ==> SameEntry(m, n, i))
    && (id !in m.live ==> SameEntry(m, n, id) && n.cache == m.cache && n.pushed == m.pushed)
    && (id in m.live ==>
          && (id in n.live ==> Follows(m.live[id], n.live[id]))
          && (id !in n.live ==> id in n.retired && Terminal(n.retired[id].state) && Follows(m.live[id], n.retired[id]))
          && (forall k :: k != m.live[id].key ==>
               (k in m.cache <==> k in n.cache) && (k in m.cache ==> n.cache[k] == m.cache[k]))
          && (n.pushed == m.pushed ||
              (|n.pushed| == |m.pushed| + 1 && n.pushed[..|m.pushed|] == m.pushed &&
                  n.pushed[|m.pushed|].origin == FromTransaction(id))))
  }

  lemma RetireTouches(cfg: Config, now: Time, m: Mem, id: Id, tx: Tx, final: TxState, payload: Option<Bytes>)
    requires id in m.live && Terminal(final) && SameIdentity(m.live[id], tx)
    requires final.TimedOut? ==> m.live[id].state.InFlight?
    ensures Touches(m, Retire(cfg, now, m, id, tx, final, payload), id)
  {
  }

  lemma UpdateTouches(m: Mem, id: Id, tx: Tx, owner: Owner)
    requires id in m.live && Follows(m.live[id], tx)
    ensures Touches(m, Update(m, id, tx).(owner := owner), id)
  {
  }

  lemma BufferTouches(m: Mem, id: Id, reply: Reply)
    requires id in m.live
    ensures Touches(m, m.(pending := m.pending[id := reply]), id)
  {
  }

  lemma NoTouch(m: Mem, id: Id)
    ensures Touches(m, m, id)
  {
  }

  /** Touching does not depend on who holds the lock. */
  lemma TouchesAcross(m: Mem, m': Mem, n: Mem, id: Id)
    requires m' == m.(holder := m'.holder, owner := m'.owner) && Touches(m', n, id)
    ensures Touches(m, n, id)
  {
    forall i | i != id ensures SameEntry(m, n, i) { assert SameEntry(m', n, i); }
  }

  lemma ConcludeTouches(cfg: Config, now: Time, m: Mem, id: Id, final: TxState, payload: Option<Bytes>)
    requires MemInv(cfg, now, m) && (final.Failed? || final.TimedOut?)
    requires final.TimedOut? && id in m.live ==> m.live[id].state.InFlight?
    ensures Touches(m, Conclude(cfg, now, m, id, final, payload).0, id)
  {
    hide Touches, Conclude, Retire;
    hide LockAgrees, TablesAgree, CacheAgrees, OutboxAgrees, TimersAgree;
    if id in m.live {
      ConcludeForm(cfg, now, m, id, final, payload);
      NoTouch(m, id);
      BufferTouches(m, id, Reply(payload, final));
      var tx := m.live[id];
      if !tx.handoff {
        if id in m.pending && tx.state.PendingPublish? {
          RetireTouches(cfg, now, m, id, tx.(state := InFlight), m.pending[id].state, m.pending[id].payload);
        } else {
          RetireTouches(cfg, now, m, id, tx, final, payload);
        }
      }
    } else {
      ConcludeMissing(cfg, now, m, id, final, payload);
      NoTouch(m, id);
    }
  }

  lemma MarkInFlightTouches(cfg: Config, now: Time, m: Mem, id: Id)
    requires MemInv(cfg, now, m)
    ensures Touches(m, MarkInFlight(cfg, now, m, id).0, id)
  {
    hide Touches, MarkInFlight, Retire;
    hide LockAgrees, TablesAgree, CacheAgrees, OutboxAgrees, TimersAgree;
    if id in m.live && m.live[id].state.PendingPublish? {
      MarkInFlightForm(cfg, now, m, id);
      var tx := m.live[id].(state := InFlight);
      if id in m.pending {
        RetireTouches(cfg, now, m, id, tx, m.pending[id].state, m.pending[id].payload);
      } else {
        UpdateTouches(m, id, tx.(deadline := Some(now + tx.timeout), timer := true, timedOnce := true), m.owner);
      }
    } else {
      MarkInFlightIdle(cfg, now, m, id);
      NoTouch(m, id);
    }
  }

  lemma CompleteTouches(cfg: Config, now: Time, m: Mem, id: Id, response: Option<Bytes>)
    ensures Touches(m, Complete(cfg, now, m, id, response).0, id)
  {
    hide Touches, Retire;
    NoTouch(m, id);
    if id in m.live {
      BufferTouches(m, id, Reply(response, Completed));
      RetireTouches(cfg, now, m, id, m.live[id], Completed, response);
    }
  }

  lemma DispatchTimeoutTouches(cfg: Config, now: Time, m: Mem, id: Id)
    requires MemInv(cfg, now, m)
    ensures Touches(m, DispatchTimeoutFail(cfg, now, m, id), id)
  {
    hide Touches, Retire, LockAgrees, TablesAgree, CacheAgrees, OutboxAgrees, TimersAgree;
    NoTouch(m, id);
    if id in m.live && PreFlight(m.live[id].state) {
      DispatchTimeoutForm(cfg, now, m, id);
      if id in m.pending && m.live[id].state.PendingPublish? {
        RetireTouches(cfg, now, m, id, m.live[id].(state := InFlight), m.pending[id].state, m.pending[id].payload);
      } else {
        RetireTouches(cfg, now, m, id, m.live[id], Failed, None);
      }
    }
  }

  lemma AdvanceTouches(m: Mem, id: Id, to: TxState)
    requires !Terminal(to)
    ensures Touches(m, Advance(m, id, to).0, id)
  {
    hide Touches;
    NoTouch(m, id);
    if id in m.live && ValidateTransition(m.live[id].state, to).None? {
      UpdateTouches(m, id, m.live[id].(state := to), m.owner);
    }
  }

  lemma BeginTouches(m: Mem, id: Id)
    ensures Touches(m, BeginHandoff(m, id).0, id)
  {
    hide Touches;
    NoTouch(m, id);
    if id in m.live {
      UpdateTouches(m, id, m.live[id].(handoff := true, timer := false), TransferPending);
    }
  }

  lemma FailedTouches(s: Setup, w: World, id: Id)
    requires Inv(s, w) && id in w.hand && w.hand[id].phase.Saving?
    ensures Touches(w.mem, ResumeFailed(s.cfg, w.now, w.mem, id).0, id)
    ensures id in w.mem.live && id in w.mem.pending ==>
              ResumeFailed(s.cfg, w.now, w.mem, id).0 ==
              Retire(s.cfg, w.now, w.mem, id, w.mem.live[id].(handoff := false), w.mem.pending[id].state,
                  w.mem.pending[id].payload)
  {
    hide Inv, MemInv, ResumeFailed, Reclaim, Retire, TimersAgree, Touches;
    LiveFacts(s, w, id);
    HandFacts(s, w, id);
    var m := w.mem;
    if id in m.live {
      ResumeFailedForm(s.cfg, w.now, m, id);
      var tx := m.live[id].(handoff := false);
      if id in m.pending {
        RetireTouches(s.cfg, w.now, m, id, tx, m.pending[id].state, m.pending[id].payload);
      } else if tx.state.PendingPublish? {
        ReclaimForm(m, id, tx);
        UpdateTouches(m, id, tx, Reclaim(m, id).owner);
      } else if w.now < tx.deadline.value {
        var tx' := tx.(timer := true, timedOnce := true);
        ReclaimForm(m, id, tx');
        UpdateTouches(m, id, tx', Reclaim(m, id).owner);
      } else {
        RetireTouches(s.cfg, w.now, m, id, tx, TimedOut, TimeoutResponse(s.cfg, tx));
      }
    } else {
      RetiredFacts(s, w, id);
      ResumeFailedOnRetired(s.cfg, w.now, m, id);
      NoTouch(m, id);
    }
  }

  lemma SavedTouches(s: Setup, w: World, id: Id)
    requires Inv(s, w) && id in w.hand && w.hand[id].phase.Saving?
    ensures var r := ResumeSaved(s.cfg, w.now, w.mem, id, w.hand[id].op, w.hand[id].response);
            && Touches(w.mem, r.0, id)
            && (id in w.mem.live && id in w.mem.pending ==>
                  r == (w.mem.(holder := Some(w.hand[id].op), owner := OwnedByOperation),
                      MustRelease(w.mem.pending[id])))
  {
    hide Inv, MemInv, Retire, TimersAgree, BuffersAgree, Touches;
    LiveFacts(s, w, id);
    HandFacts(s, w, id);
    var m := w.mem.(holder := Some(w.hand[id].op), owner := OwnedByOperation);
    NoTouch(w.mem, id);
    if id in w.mem.live {
      NoTouch(m, id);
      TouchesAcross(w.mem, m, m, id);
      RetireTouches(s.cfg, w.now, m, id, m.live[id], Completed, w.hand[id].response);
      TouchesAcross(w.mem, m, Retire(s.cfg, w.now, m, id, m.live[id], Completed, w.hand[id].response), id);
    } else {
      RetiredFacts(s, w, id);
    }
  }

  lemma FinishTouches(s: Setup, w: World, id: Id)
    requires Inv(s, w) && id in w.hand && w.hand[id].phase.Finishing?
    ensures Touches(w.mem, FinishHandoff(s.cfg, w, id).mem, id)
    ensures id in w.mem.live ==>
              && id in w.mem.pending
              && FinishHandoff(s.cfg, w, id).mem ==
                 Retire(s.cfg, w.now, w.mem, id, w.mem.live[id], w.mem.pending[id].state, w.mem.pending[id].payload)
  {
    hide Inv, MemInv, Retire, TimersAgree, Touches;
    LiveFacts(s, w, id);
    HandFacts(s, w, id);
    var m := w.mem;
    NoTouch(m, id);
    if id in m.live {
      DeliverForm(s.cfg, w.now, m, id);
      RetireTouches(s.cfg, w.now, m, id, m.live[id], m.pending[id].state, m.pending[id].payload);
    } else {
      RetiredFacts(s, w, id);
      assert m.pending - {id} == m.pending;
    }
  }

  /** The transaction a step works on, if it works on one that exists already. */
  ghost function Subject(step: Step): Option<Id> {
    match step
    case ExecPreparing(id) => Some(id)
    case ExecPublishing(id) => Some(id)
    case ExecInFlight(id) => Some(id)
    case ExecFail(id, _) => Some(id)
    case ResultComplete(id, _) => Some(id)
    case ResultFail(id, _) => Some(id)
    case ResultRetain(id, _, _) => Some(id)
    case TimerFires(id) => Some(id)
    case DispatchTimerFires(id) => Some(id)
    case HandoffSaved(id) => Some(id)
    case HandoffFailed(id) => Some(id)
    case HandoffFinish(id) => Some(id)
    case _ => None
  }

  lemma ExecSubjectTouches(s: Setup, w: World, step: Step)
    requires Inv(s, w) && Enabled(s, w, step) && Subject(step).Some? && OfExecutor(step)
    ensures Touches(w.mem, Apply(s, w, step).mem, Subject(step).value)
  {
    hide Inv, MemInv, Touches, Conclude, MarkInFlight, Advance, BuffersAgree, TimersAgree;
    var id := step.id;
    LiveFacts(s, w, id);
    if step.ExecPreparing? { AdvanceTouches(w.mem, id, PreparingDispatch); }
    else if step.ExecPublishing? { AdvanceTouches(w.mem, id, PendingPublish); }
    else if step.ExecInFlight? { MarkInFlightTouches(s.cfg, w.now, w.mem, id); }
    else { ConcludeTouches(s.cfg, w.now, w.mem, id, Failed, Some(step.text)); }
  }

  lemma HandSubjectTouches(s: Setup, w: World, step: Step)
    requires Inv(s, w) && Enabled(s, w, step) && Subject(step).Some? && OfHandoff(step)
    ensures Touches(w.mem, Apply(s, w, step).mem, Subject(step).value)
  {
    hide Inv, MemInv, Touches, ResumeSaved, ResumeFailed, FinishHandoff;
    if step.HandoffSaved? { SavedTouches(s, w, step.id); }
    else if step.HandoffFailed? { FailedTouches(s, w, step.id); }
    else { FinishTouches(s, w, step.id); }
  }

  lemma OtherSubjectTouches(s: Setup, w: World, step: Step)
    requires Inv(s, w) && Enabled(s, w, step) && Subject(step).Some? && !OfExecutor(step) && !OfHandoff(step)
    ensures Touches(w.mem, Apply(s, w, step).mem, Subject(step).value)
  {
    hide Inv, MemInv, Touches, Conclude, Complete, DispatchTimeoutFail, BeginHandoff, Timeout, BuffersAgree,
        TimersAgree;
    var id := step.id;
    LiveFacts(s, w, id);
    if step.ResultComplete? { CompleteTouches(s.cfg, w.now, w.mem, id, step.response); }
    else if step.ResultFail? { ConcludeTouches(s.cfg, w.now, w.mem, id, Failed, step.response); }
    else if step.ResultRetain? { BeginTouches(w.mem, id); NoTouch(w.mem, id); }
    else if step.TimerFires? { TimeoutTouches(s, w, id); }
    else { DispatchTimeoutTouches(s.cfg, w.now, w.mem, id); }
  }

  lemma SubjectTouches(s: Setup, w: World, step: Step)
    requires Inv(s, w) && Enabled(s, w, step) && Subject(step).Some?
    ensures Touches(w.mem, Apply(s, w, step).mem, Subject(step).value)
  {
    hide Inv, Apply, Enabled, Touches;
    if OfExecutor(step) { ExecSubjectTouches(s, w, step); }
    else if OfHandoff(step) { HandSubjectTouches(s, w, step); }
    else { OtherSubjectTouches(s, w, step); }
  }

  lemma TimeoutTouches(s: Setup, w: World, id: Id)
    requires Inv(s, w) && (id in w.mem.live ==> w.mem.live[id].timedOnce)
    ensures Touches(w.mem, Timeout(s.cfg, w.now, w.mem, id).0, id)
  {
    hide Inv, MemInv, Touches, Conclude, TimersAgree;
    LiveFacts(s, w, id);
    NoTouch(w.mem, id);
    if id in w.mem.live {
      ConcludeTouches(s.cfg, w.now, w.mem, id, TimedOut, TimeoutResponse(s.cfg, w.mem.live[id]));
    }
  }

  /** The tables and the outbox are the same; lock, release marker and cache may differ. */
  ghost predicate SameTables(m: Mem, n: Mem) {
    n.live == m.live && n.retired == m.retired && n.active == m.active && n.pending == m.pending && n.pushed == m.pushed
  }

  ghost predicate FrameDropped(w: World, v: World) {
    v.mem == w.mem && v.frameOf == w.frameOf
  }

  ghost predicate FrameReplied(w: World, v: World, session: string) {
    && v.frameOf == w.frameOf
    && v.mem == w.mem.(pushed := v.mem.pushed)
    && |v.mem.pushed| == |w.mem.pushed| + 1
    && v.mem.pushed[..|w.mem.pushed|] == w.mem.pushed
    && v.mem.pushed[|w.mem.pushed|].origin == FromFrame(w.frames)
    && v.mem.pushed[|w.mem.pushed|].session == session
  }

  ghost predicate FrameOpened(w: World, v: World, id: Id, f: Inbound) {
    && v.frameOf == w.frameOf[id := w.frames]
    && Admitted(w.mem, v.mem, id)
    && v.mem.live[id].session == f.session
    && v.mem.live[id].respond == !IsNotification(f.id)
    && v.mem.live[id].cloudId == f.id
    && v.mem.live[id].command == f.command
    && RequestKey(f.session, f.id) == Some(v.mem.live[id].key)
  }

  /** The three things a frame can do: nothing, one answer, or one new transaction. */
  ghost predicate FrameEffect(w: World, v: World, id: Id, f: Inbound) {
    && v.frames == w.frames + 1
    && v.now == w.now
    && v.hand == w.hand
    && v.mem.cache == w.mem.cache
    && (FrameDropped(w, v) || FrameReplied(w, v, f.session) || FrameOpened(w, v, id, f))
  }

  lemma AdmittedCache(cfg: Config, now: Time, m: Mem, id: Id, f: Inbound, respond: bool, changing: bool)
    requires f.Request?
    requires CreateTransaction(cfg, now, m, id, f.session, f.id, respond, f.command, f.timeout, changing).1.Ok?
    ensures CreateTransaction(cfg, now, m, id, f.session, f.id, respond, f.command, f.timeout, changing).0.cache ==
              m.cache
    ensures id in CreateTransaction(cfg, now, m, id, f.session, f.id, respond, f.command, f.timeout, changing).0.live
  {
    AdmittedForm(cfg, now, m, id, f, respond, changing);
  }

  lemma ReplyForm(w: World, session: string, text: Bytes)
    ensures FrameReplied(w, PushForFrame(w, session, text), session)
    ensures PushForFrame(w, session, text).frames == w.frames + 1
    ensures PushForFrame(w, session, text).mem.cache == w.mem.cache && PushForFrame(w, session, text).now == w.now
    ensures PushForFrame(w, session, text).hand == w.hand
  {
  }

  lemma AdmitForm(s: Setup, w: World, f: Inbound, respond: bool, changing: bool, id: Id, text: Bytes)
    requires f.Request? && respond == !IsNotification(f.id)
    ensures FrameEffect(w, AdmitFrame(s, w, f, respond, changing, id, text), id, f)
  {
    hide CreateTransaction, Admitted, FrameReplied, PushForFrame;
    var r := CreateTransaction(s.cfg, w.now, w.mem, id, f.session, f.id, respond, f.command, f.timeout, changing);
    if r.1.Ok? {
      AdmittedCache(s.cfg, w.now, w.mem, id, f, respond, changing);
      AdmittedForm(s.cfg, w.now, w.mem, id, f, respond, changing);
    } else if r.1.error.CachedResponse? {
      ReplyForm(w, f.session, r.1.error.payload);
    } else {
      ReplyForm(w, f.session, text);
    }
  }

  lemma FrameForm(s: Setup, w: World, f: Inbound, degraded: bool, id: Id, text: Bytes)
    ensures FrameEffect(w, ReceiveFrame(s, w, f, degraded, id, text), id, f)
  {
    hide Decide, AdmitFrame, FrameReplied, FrameOpened, PushForFrame;
    ReplyForm(w, f.session, text);
    match Decide(s.limits, degraded, f)
    case Ignore =>
    case Answer =>
    case Admit(respond, changing) => AdmitForm(s, w, f, respond, changing, id, text);
  }

  ghost predicate Quiet(w: World, v: World) {
    SameTables(w.mem, v.mem) && v.frames == w.frames && v.frameOf == w.frameOf && v.mem.cache == w.mem.cache
  }

  lemma QuietHandoff(cfg: Config, w: World, step: Step)
    requires OfHandoff(step) && HandoffEnabled(w, step) && Subject(step).None?
    ensures Quiet(w, HandoffApply(cfg, w, step))
  {
    hide SetPhase, DeleteRecord;
  }

  lemma QuietSweeper(cfg: Config, w: World, step: Step)
    requires OfSweeper(step) && SweeperEnabled(cfg.recordLimit, w, step)
    ensures Quiet(w, SweeperApply(cfg, w, step))
  {
    hide ActiveQuery, CheckRecord, NextRecord, SetSweep, StartSweep, DeleteRecord, FreeLock;
    if step.SweepFree? {
    } else if step.SweepRemove? {
    } else if step.SweepFreedDelete? {
    } else if step.SweepFreedClear? {
    } else {
      assert step.SweepRead? || step.SweepClock? || step.SweepCheck?;
    }
  }

  /** Steps of the sweeper, the clock, the cache and the middle of a handoff leave the tables alone. */
  lemma QuietStep(s: Setup, w: World, step: Step)
    requires Enabled(s, w, step) && Subject(step).None? && !step.Frame?
    ensures var v := Apply(s, w, step);
            && SameTables(w.mem, v.mem) && v.frames == w.frames && v.frameOf == w.frameOf
            && (v.mem.cache == w.mem.cache ||
                 (step.CacheSweeps? && v.mem.cache == CacheSweep(w.mem.cache, w.now) && v.now == w.now))
  {
    hide HandoffApply, HandoffEnabled, SweeperApply, SweeperEnabled;
    if OfHandoff(step) {
      QuietHandoff(s.cfg, w, step);
    } else if OfSweeper(step) {
      QuietSweeper(s.cfg, w, step);
    } else {
      assert step.Tick? || step.ExecBuffer? || step.ExecDispatch? || step.CacheSweeps?;
    }
  }

  ghost predicate SameFrames(w: World, v: World) {
    v.frames == w.frames && v.frameOf == w.frameOf && v.now == w.now
  }

  lemma ExecutorRest(cfg: Config, w: World, step: Step)
    requires OfExecutor(step) && ExecutorEnabled(w, step)
    ensures SameFrames(w, ExecutorApply(cfg, w, step))
  {
    hide Conclude, MarkInFlight, Advance;
  }

  lemma HandoffRest(cfg: Config, w: World, step: Step)
    requires OfHandoff(step) && HandoffEnabled(w, step)
    ensures SameFrames(w, HandoffApply(cfg, w, step))
  {
    hide ResumeSaved, ResumeFailed, Deliver, SetPhase, DeleteRecord, BeginRelease, EndRelease;
  }

  lemma SubjectRest(s: Setup, w: World, step: Step)
    requires Enabled(s, w, step) && Subject(step).Some?
    ensures SameFrames(w, Apply(s, w, step))
  {
    hide Conclude, Complete, DispatchTimeoutFail, BeginHandoff, Timeout;
    hide HandoffApply, HandoffEnabled, ExecutorApply, ExecutorEnabled;
    if OfHandoff(step) {
      HandoffRest(s.cfg, w, step);
    } else if OfExecutor(step) {
      ExecutorRest(s.cfg, w, step);
    }
  }

  /** A step without a subject leaves every entry of every existing transaction alone. */
  lemma OthersUntouched(s: Setup, w: World, step: Step, i: Id)
    requires Enabled(s, w, step) && Subject(step).None? && i in w.used
    ensures SameEntry(w.mem, Apply(s, w, step).mem, i)
  {
    if step.Frame? {
      FrameForm(s, w, step.f, step.degraded, step.id, step.text);
      FrameLeaves(w, Apply(s, w, step), step.id, step.f, i);
    } else {
      hide Apply;
      QuietStep(s, w, step);
    }
  }

  lemma FrameLeaves(w: World, v: World, id: Id, f: Inbound, i: Id)
    requires FrameEffect(w, v, id, f) && i != id
    ensures SameEntry(w.mem, v.mem, i)
  {
  }

  /** Whatever the step, existing transactions follow the lifecycle and removed ones never change. */
  lemma StepFollows(s: Setup, w: World, step: Step, id: Id)
    requires Inv(s, w) && Enabled(s, w, step) && id in w.exec
    ensures var v := Apply(s, w, step);
            && (id in w.mem.live && id in v.mem.live ==> Follows(w.mem.live[id], v.mem.live[id]))
            && (id in w.mem.live && id !in v.mem.live ==>
                  id in v.mem.retired && Terminal(v.mem.retired[id].state) &&
                      Follows(w.mem.live[id], v.mem.retired[id]))
            && (id in w.mem.retired ==> id in v.mem.retired && v.mem.retired[id] == w.mem.retired[id])
  {
    IdFacts(s, w, id);
    hide Inv, Apply, Enabled;
    if Subject(step).None? {
      OthersUntouched(s, w, step, id);
    } else {
      SubjectTouches(s, w, step);
      var v := Apply(s, w, step);
      if Subject(step) != Some(id) { assert SameEntry(w.mem, v.mem, id); }
    }
  }

  lemma IdFacts(s: Setup, w: World, id: Id)
    requires Inv(s, w) && id in w.exec
    ensures id in w.used && (id in w.mem.live <==> id !in w.mem.retired)
  {
    hide TablesAgree, LockAgrees, CacheAgrees, OutboxAgrees, TimersAgree, BuffersAgree, Processes, Records, Safety,
        FramesAgree;
  }

  /** At most one message is pushed, after all earlier ones. */
  ghost predicate Grows(w: World, v: World) {
    w.mem.pushed <= v.mem.pushed && |v.mem.pushed| <= |w.mem.pushed| + 1
  }

  lemma TouchGrows(s: Setup, w: World, step: Step)
    requires Inv(s, w) && Enabled(s, w, step) && Subject(step).Some?
    ensures Grows(w, Apply(s, w, step)) && Apply(s, w, step).frames == w.frames
  {
    hide Inv, Apply, Enabled, Subject;
    SubjectTouches(s, w, step);
    SubjectRest(s, w, step);
  }

  lemma FrameGrows(s: Setup, w: World, f: Inbound, degraded: bool, id: Id, text: Bytes)
    ensures Grows(w, ReceiveFrame(s, w, f, degraded, id, text))
  {
    hide ReceiveFrame;
    FrameForm(s, w, f, degraded, id, text);
  }

  lemma PushesGrow(s: Setup, w: World, step: Step)
    requires Inv(s, w) && Enabled(s, w, step)
    ensures Grows(w, Apply(s, w, step))
    ensures Apply(s, w, step).frames == w.frames + if step.Frame? then 1 else 0
  {
    if Subject(step).Some? {
      hide Inv, Apply, Enabled, Grows;
      TouchGrows(s, w, step);
    } else if step.Frame? {
      hide Inv, ReceiveFrame, Grows;
      FrameGrows(s, w, step.f, step.degraded, step.id, step.text);
    } else {
      hide Inv, Apply, Enabled;
      QuietStep(s, w, step);
    }
  }
}
