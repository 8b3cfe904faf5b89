/** Responses: at most one per frame, none for notifications, and replays instead of re-execution. */
module ResponseTheorems {
  import opened Common
  import opened Transactions
  import opened CanonicalKeys
  import opened Manager
  import opened ManagerInvariants
  import opened OperationStore
  import opened FrameHandler
  import opened World
  import opened WorldInvariants
  import opened WorldSteps
  import opened WorldEffects
  import opened Endings
  import opened RequestTheorems

  /** The inbound frame a push answers. */
  ghost function Answered(w: World, p: Push): Option<nat> {
    match p.origin
    case FromFrame(n) => Some(n)
    case FromTransaction(id) => if id in w.frameOf then Some(w.frameOf[id]) else None
  }

  /** Each inbound frame leads to at most one push, and a transaction without a response address to none. */
  lemma OnePushPerFrame(s: Setup, w: World)
    requires Reachable(s, w)
    ensures forall i :: 0 <= i < |w.mem.pushed| ==> Answered(w, w.mem.pushed[i]).Some?
    ensures forall i, j :: 0 <= i < j < |w.mem.pushed| ==> Answered(w, w.mem.pushed[i]) != Answered(w, w.mem.pushed[j])
    ensures forall i :: 0 <= i < |w.mem.pushed| && w.mem.pushed[i].origin.FromTransaction? ==>
              var id := w.mem.pushed[i].origin.id;
              && id in w.mem.retired && w.mem.retired[id].respond
              && w.mem.retired[id].session == w.mem.pushed[i].session
              && w.mem.retired[id].payload == Some(w.mem.pushed[i].payload)
  {
    hide Inv;
    ReachableInv(s, w);
    AnswersDiffer(s, w);
    PushesAreOwn(s, w);
  }

  lemma AnswersDiffer(s: Setup, w: World)
    requires Inv(s, w)
    ensures forall i :: 0 <= i < |w.mem.pushed| ==> Answered(w, w.mem.pushed[i]).Some?
    ensures forall i, j :: 0 <= i < j < |w.mem.pushed| ==> Answered(w, w.mem.pushed[i]) != Answered(w, w.mem.pushed[j])
  {
    hide StatesAgree, TablesAgree, BuffersAgree, LockAgrees, TimersAgree, CacheAgrees, OpIds, OpsOfSweep, OpsOfHands,
        OpsOfLock, Processes, Records, Safety;
    var pushed := w.mem.pushed;
    forall i, j | 0 <= i < j < |pushed|
      ensures Answered(w, pushed[i]) != Answered(w, pushed[j])
    {
      assert pushed[i].origin != pushed[j].origin;
      if pushed[i].origin.FromTransaction? { assert pushed[i].origin.id in w.frameOf; }
      if pushed[j].origin.FromTransaction? { assert pushed[j].origin.id in w.frameOf; }
    }
  }

  lemma PushesAreOwn(s: Setup, w: World)
    requires Inv(s, w)
    ensures forall i :: 0 <= i < |w.mem.pushed| && w.mem.pushed[i].origin.FromTransaction? ==>
              var id := w.mem.pushed[i].origin.id;
              && id in w.mem.retired && w.mem.retired[id].respond
              && w.mem.retired[id].session == w.mem.pushed[i].session
              && w.mem.retired[id].payload == Some(w.mem.pushed[i].payload)
  {
    hide Identities, Processes, Records, Safety, FramesAgree, StatesAgree, TablesAgree, BuffersAgree, LockAgrees,
        TimersAgree, CacheAgrees;
  }

  // ----- notifications -----

  /** Frame `n` was answered by nothing and nothing will: its transaction, if any, has no response address. */
  ghost predicate Silent(w: World, n: nat) {
    && n < w.frames
    && (forall i :: 0 <= i < |w.mem.pushed| ==> w.mem.pushed[i].origin != FromFrame(n))
    && (forall id :: id in w.frameOf && w.frameOf[id] == n && id in w.mem.live ==> !w.mem.live[id].respond)
    && (forall id :: id in w.frameOf && w.frameOf[id] == n && id in w.mem.retired ==> !w.mem.retired[id].respond)
  }

  /** New pushes come from the step's own transaction or from the frame being received. */
  lemma SilentSubject(s: Setup, w: World, step: Step, n: nat)
    requires Inv(s, w) && Enabled(s, w, step) && Subject(step).Some? && Silent(w, n)
    ensures Silent(Apply(s, w, step), n)
  {
    hide Inv, Apply, Enabled;
    var v := Apply(s, w, step);
    var id := Subject(step).value;
    SubjectTouches(s, w, step);
    SubjectRest(s, w, step);
    StepKeeps(s, w, step);
    forall i | i in v.frameOf && v.frameOf[i] == n
      ensures i in v.mem.live ==> !v.mem.live[i].respond
      ensures i in v.mem.retired ==> !v.mem.retired[i].respond
    {
      if i != id { assert SameEntry(w.mem, v.mem, i); }
      TxFacts(s, w, i);
      TxFacts(s, v, i);
    }
    forall i | 0 <= i < |v.mem.pushed|
      ensures v.mem.pushed[i].origin != FromFrame(n)
    {
      if i < |w.mem.pushed| { assert v.mem.pushed[i] == v.mem.pushed[..|w.mem.pushed|][i]; }
    }
  }

  lemma TxFacts(s: Setup, w: World, i: Id)
    requires Inv(s, w) && i in w.frameOf
    ensures i in w.mem.live <==> i !in w.mem.retired
  {
    hide TablesAgree, LockAgrees, CacheAgrees, OutboxAgrees, TimersAgree, BuffersAgree, Processes, Records, Safety,
        FramesAgree;
  }

  lemma SilentFrame(s: Setup, w: World, v: World, id: Id, f: Inbound, n: nat)
    requires Inv(s, w) && FrameEffect(w, v, id, f) && id !in w.used && Silent(w, n)
    ensures Silent(v, n)
  {
    hide Inv;
    NewIdFacts(s, w, id);
    if FrameReplied(w, v, f.session) {
      forall i | 0 <= i < |v.mem.pushed|
        ensures v.mem.pushed[i].origin != FromFrame(n)
      {
        if i < |w.mem.pushed| { assert v.mem.pushed[i] == v.mem.pushed[..|w.mem.pushed|][i]; }
      }
    }
  }

  lemma SilentStep(s: Setup, w: World, step: Step, n: nat)
    requires Inv(s, w) && Enabled(s, w, step) && Silent(w, n)
    ensures Silent(Apply(s, w, step), n)
  {
    if Subject(step).Some? {
      hide Inv, Apply, Enabled;
      SilentSubject(s, w, step, n);
    } else if step.Frame? {
      hide Inv, ReceiveFrame, FrameEffect, Silent;
      FrameForm(s, w, step.f, step.degraded, step.id, step.text);
      SilentFrame(s, w, Apply(s, w, step), step.id, step.f, n);
    } else {
      hide Inv, Apply, Enabled;
      QuietStep(s, w, step);
    }
  }

  lemma {:induction false} SilentRun(s: Setup, w: World, run: seq<Step>, n: nat)
    requires Inv(s, w) && ValidRun(s, w, run) && Silent(w, n)
    ensures Silent(Final(s, w, run), n)
    decreases |run|
  {
    hide Inv, Apply, Enabled, Silent;
    if run != [] {
      SilentStep(s, w, run[0], n);
      StepKeeps(s, w, run[0]);
      SilentRun(s, Apply(s, w, run[0]), run[1..], n);
    }
  }

  lemma NotificationFrame(s: Setup, w: World, f: Inbound, degraded: bool, id: Id, text: Bytes)
    requires Inv(s, w) && id !in w.used && f.Request? && f.valid && IsNotification(f.id)
    ensures Silent(ReceiveFrame(s, w, f, degraded, id, text), w.frames)
  {
    hide TxIds, OpIds, OpsOfSweep, OpsOfHands, OpsOfLock, Processes, Records, Safety, OutboxAgrees, TablesAgree,
        LockAgrees, TimersAgree, BuffersAgree;
    var v := ReceiveFrame(s, w, f, degraded, id, text);
    NotificationHasNoCachedResponse(s, w, f);
    NewIdFacts(s, w, id);
    FrameForm(s, w, f, degraded, id, text);
    NotificationNotAnswered(s, w, f, degraded, id, text);
  }

  lemma NotificationHasNoCachedResponse(s: Setup, w: World, f: Inbound)
    requires MemInv(s.cfg, w.now, w.mem) && IsNotification(f.id)
    ensures RequestKey(f.session, f.id) == Some(NoKey) && CacheGet(w.mem.cache, NoKey, w.now) == None
  {
  }

  lemma NotificationNotAnswered(s: Setup, w: World, f: Inbound, degraded: bool, id: Id, text: Bytes)
    requires f.Request? && f.valid && IsNotification(f.id)
    requires CacheGet(w.mem.cache, NoKey, w.now) == None
    ensures ReceiveFrame(s, w, f, degraded, id, text).mem.pushed == w.mem.pushed
  {
  }

  /** A valid notification is never answered, neither on arrival nor by anything that happens later. */
  lemma NotificationsAreSilent(s: Setup, w: World, step: Step, run: seq<Step>)
    requires Reachable(s, w) && Enabled(s, w, step) && step.Frame?
    requires step.f.Request? && step.f.valid && IsNotification(step.f.id)
    requires ValidRun(s, Apply(s, w, step), run)
    ensures var v := Final(s, Apply(s, w, step), run);
            forall i :: 0 <= i < |v.mem.pushed| ==> Answered(v, v.mem.pushed[i]) != Some(w.frames)
  {
    hide Inv;
    ReachableInv(s, w);
    NotificationStep(s, w, step, run);
  }

  lemma NotificationStep(s: Setup, w: World, step: Step, run: seq<Step>)
    requires Inv(s, w) && Enabled(s, w, step) && step.Frame?
    requires step.f.Request? && step.f.valid && IsNotification(step.f.id)
    requires ValidRun(s, Apply(s, w, step), run)
    ensures var v := Final(s, Apply(s, w, step), run);
            forall i :: 0 <= i < |v.mem.pushed| ==> Answered(v, v.mem.pushed[i]) != Some(w.frames)
  {
    hide Inv, ReceiveFrame;
    NotificationFrame(s, w, step.f, step.degraded, step.id, step.text);
    StepKeeps(s, w, step);
    SilentRun(s, Apply(s, w, step), run, w.frames);
    RunKeeps(s, Apply(s, w, step), run);
    SilentMeansUnanswered(s, Final(s, Apply(s, w, step), run), w.frames);
  }

  lemma SilentMeansUnanswered(s: Setup, v: World, n: nat)
    requires Inv(s, v) && Silent(v, n)
    ensures forall i :: 0 <= i < |v.mem.pushed| ==> Answered(v, v.mem.pushed[i]) != Some(n)
  {
    hide StatesAgree, TablesAgree, BuffersAgree, LockAgrees, TimersAgree, CacheAgrees, OpIds, OpsOfSweep, OpsOfHands,
        OpsOfLock, Processes, Records, Safety;
  }

  // ----- answers carry the session of their frame -----

  /** Transaction `tx` is for the request of frame `f`. */
  ghost predicate Serves(tx: Tx, f: Inbound) {
    && tx.session == f.session && tx.cloudId == f.id && tx.command == f.command
    && tx.respond == !IsNotification(f.id) && RequestKey(f.session, f.id) == Some(tx.key)
  }

  /** Frame `n` was `f`, and whatever was opened or pushed because of it is for its request and session. */
  ghost predicate CameFrom(w: World, n: nat, f: Inbound) {
    && n < w.frames
    && (forall i :: 0 <= i < |w.mem.pushed| && w.mem.pushed[i].origin == FromFrame(n) ==>
         w.mem.pushed[i].session == f.session)
    && (forall id :: id in w.frameOf && w.frameOf[id] == n && id in w.mem.live ==> Serves(w.mem.live[id], f))
    && (forall id :: id in w.frameOf && w.frameOf[id] == n && id in w.mem.retired ==> Serves(w.mem.retired[id], f))
  }

  lemma CameFromSubject(s: Setup, w: World, step: Step, n: nat, f: Inbound)
    requires Inv(s, w) && Enabled(s, w, step) && Subject(step).Some? && CameFrom(w, n, f)
    ensures CameFrom(Apply(s, w, step), n, f)
  {
    hide Inv, Apply, Enabled;
    var v := Apply(s, w, step);
    var id := Subject(step).value;
    SubjectTouches(s, w, step);
    SubjectRest(s, w, step);
    StepKeeps(s, w, step);
    forall i | i in v.frameOf && v.frameOf[i] == n
      ensures i in v.mem.live ==> Serves(v.mem.live[i], f)
      ensures i in v.mem.retired ==> Serves(v.mem.retired[i], f)
    {
      if i != id { assert SameEntry(w.mem, v.mem, i); }
      TxFacts(s, w, i);
      TxFacts(s, v, i);
    }
    forall i | 0 <= i < |v.mem.pushed| && v.mem.pushed[i].origin == FromFrame(n)
      ensures v.mem.pushed[i].session == f.session
    {
      if i < |w.mem.pushed| { assert v.mem.pushed[i] == v.mem.pushed[..|w.mem.pushed|][i]; }
    }
  }

  /** A frame leaves what earlier frames led to alone. */
  lemma CameFromFrame(s: Setup, w: World, v: World, id: Id, g: Inbound, n: nat, f: Inbound)
    requires Inv(s, w) && FrameEffect(w, v, id, g) && id !in w.used && CameFrom(w, n, f)
    ensures CameFrom(v, n, f)
  {
    hide Inv;
    NewIdFacts(s, w, id);
    forall i | 0 <= i < |v.mem.pushed| && v.mem.pushed[i].origin == FromFrame(n)
      ensures v.mem.pushed[i].session == f.session
    {
      assert v.mem.pushed[..|w.mem.pushed|] == w.mem.pushed;
      if i < |w.mem.pushed| { assert v.mem.pushed[i] == v.mem.pushed[..|w.mem.pushed|][i]; }
    }
  }

  /** What a frame opens or pushes is for its own session. */
  lemma NewFrameSession(s: Setup, w: World, v: World, id: Id, f: Inbound)
    requires Inv(s, w) && FrameEffect(w, v, id, f) && id !in w.used
    ensures CameFrom(v, w.frames, f)
  {
    hide Inv;
    NewIdFacts(s, w, id);
    FrameNumbers(s, w);
    assert v.mem.pushed[..|w.mem.pushed|] == w.mem.pushed;
    assert forall i :: 0 <= i < |w.mem.pushed| ==> v.mem.pushed[i] == w.mem.pushed[i];
  }

  lemma FrameNumbers(s: Setup, w: World)
    requires Inv(s, w)
    ensures forall i :: 0 <= i < |w.mem.pushed| && w.mem.pushed[i].origin.FromFrame? ==>
              w.mem.pushed[i].origin.frame < w.frames
    ensures forall id :: id in w.frameOf ==> w.frameOf[id] < w.frames
  {
    hide MemInv, Identities, Processes, Records, Safety;
  }

  lemma CameFromStep(s: Setup, w: World, step: Step, n: nat, f: Inbound)
    requires Inv(s, w) && Enabled(s, w, step) && CameFrom(w, n, f)
    ensures CameFrom(Apply(s, w, step), n, f)
  {
    if Subject(step).Some? {
      hide Inv, Apply, Enabled, CameFrom;
      CameFromSubject(s, w, step, n, f);
    } else if step.Frame? {
      hide Inv, ReceiveFrame, FrameEffect, CameFrom;
      FrameForm(s, w, step.f, step.degraded, step.id, step.text);
      CameFromFrame(s, w, Apply(s, w, step), step.id, step.f, n, f);
    } else {
      hide Inv, Apply, Enabled;
      QuietStep(s, w, step);
    }
  }

  lemma FrameStepSession(s: Setup, w: World, step: Step)
    requires Inv(s, w) && Enabled(s, w, step) && step.Frame?
    ensures CameFrom(Apply(s, w, step), w.frames, step.f) && Apply(s, w, step).frames == w.frames + 1
  {
    hide Inv, ReceiveFrame, CameFrom;
    FrameForm(s, w, step.f, step.degraded, step.id, step.text);
    NewFrameSession(s, w, Apply(s, w, step), step.id, step.f);
  }

  lemma {:induction false} CameFromRun(s: Setup, w: World, run: seq<Step>, n: nat, f: Inbound)
    requires Inv(s, w) && ValidRun(s, w, run) && CameFrom(w, n, f)
    ensures Inv(s, Final(s, w, run)) && CameFrom(Final(s, w, run), n, f)
    decreases |run|
  {
    hide Inv, Apply, Enabled, CameFrom;
    if run != [] {
      CameFromStep(s, w, run[0], n, f);
      StepKeeps(s, w, run[0]);
      CameFromRun(s, Apply(s, w, run[0]), run[1..], n, f);
    }
  }

  /** A push that answers frame `n` is for the session the frame came from. */
  lemma AnswerCameFrom(s: Setup, w: World, n: nat, f: Inbound, i: nat)
    requires Inv(s, w) && CameFrom(w, n, f) && i < |w.mem.pushed| && Answered(w, w.mem.pushed[i]) == Some(n)
    ensures w.mem.pushed[i].session == f.session
  {
    hide Inv;
    PushesAreOwn(s, w);
  }

  /** Over any later run, every answer to a frame is pushed for the session the frame came in on. */
  lemma AnswersGoBack(s: Setup, w: World, step: Step, run: seq<Step>)
    requires Reachable(s, w) && Enabled(s, w, step) && step.Frame? && ValidRun(s, Apply(s, w, step), run)
    ensures var v := Final(s, Apply(s, w, step), run);
            forall i :: 0 <= i < |v.mem.pushed| && Answered(v, v.mem.pushed[i]) == Some(w.frames) ==>
              v.mem.pushed[i].session == step.f.session
  {
    hide Inv, Reachable, Apply, Enabled, CameFrom, Answered;
    ReachableInv(s, w);
    FrameStepSession(s, w, step);
    StepKeeps(s, w, step);
    CameFromRun(s, Apply(s, w, step), run, w.frames, step.f);
    var v := Final(s, Apply(s, w, step), run);
    forall i | 0 <= i < |v.mem.pushed| && Answered(v, v.mem.pushed[i]) == Some(w.frames)
      ensures v.mem.pushed[i].session == step.f.session
    {
      AnswerCameFrom(s, v, w.frames, step.f, i);
    }
  }

  // ----- replay instead of re-execution -----

  ghost predicate Cached(w: World, v: World, k: Key)
    requires k in w.mem.cache
  {
    k in v.mem.cache && v.mem.cache[k] == w.mem.cache[k]
  }

  lemma CacheSubjectKeeps(s: Setup, w: World, step: Step, k: Key)
    requires Inv(s, w) && Enabled(s, w, step) && Subject(step).Some? && k in w.mem.cache &&
               w.now < w.mem.cache[k].expiresAt
    ensures Cached(w, Apply(s, w, step), k)
  {
    hide Inv, Apply, Enabled, Subject;
    SubjectTouches(s, w, step);
    FreshKeyIsFree(s, w, k, Subject(step).value);
  }

  lemma CacheQuietKeeps(s: Setup, w: World, step: Step, k: Key)
    requires Enabled(s, w, step) && Subject(step).None? && k in w.mem.cache && w.now < w.mem.cache[k].expiresAt
    ensures Cached(w, Apply(s, w, step), k)
  {
    if step.Frame? {
      hide ReceiveFrame;
      FrameForm(s, w, step.f, step.degraded, step.id, step.text);
    } else {
      hide Apply, Enabled;
      QuietStep(s, w, step);
    }
  }

  lemma CacheStepKeeps(s: Setup, w: World, step: Step, k: Key)
    requires Inv(s, w) && Enabled(s, w, step) && k in w.mem.cache && Apply(s, w, step).now < w.mem.cache[k].expiresAt
    ensures Cached(w, Apply(s, w, step), k) && w.now <= Apply(s, w, step).now
  {
    hide Inv, Apply, Enabled, Subject;
    ClockMoves(s, w, step);
    if Subject(step).Some? { CacheSubjectKeeps(s, w, step, k); } else { CacheQuietKeeps(s, w, step, k); }
  }

  lemma ClockMoves(s: Setup, w: World, step: Step)
    requires Enabled(s, w, step)
    ensures w.now <= Apply(s, w, step).now
  {
    hide HandoffApply, HandoffEnabled, SweeperApply, SweeperEnabled, ExecutorApply, ExecutorEnabled;
    hide Conclude, Complete, DispatchTimeoutFail, Timeout, ReceiveFrame, Retain;
    if OfHandoff(step) {
      HandoffRest(s.cfg, w, step);
    } else if OfExecutor(step) {
      ExecutorRest(s.cfg, w, step);
    } else if OfSweeper(step) {
      SweeperClock(s.cfg, w, step);
    }
  }

  lemma SweeperClock(cfg: Config, w: World, step: Step)
    requires OfSweeper(step) && SweeperEnabled(cfg.recordLimit, w, step)
    ensures SweeperApply(cfg, w, step).now == w.now
  {
    hide ActiveQuery, CheckRecord, NextRecord, SetSweep, StartSweep, DeleteRecord, FreeLock, EndRelease;
  }

  /** A freshly cached key is the key of no live transaction. */
  lemma FreshKeyIsFree(s: Setup, w: World, k: Key, id: Id)
    requires Inv(s, w) && k in w.mem.cache && w.now < w.mem.cache[k].expiresAt
    ensures k !in w.mem.active && (id in w.mem.live ==> w.mem.live[id].key != k)
  {
    hide StatesAgree, BuffersAgree, LockAgrees, TimersAgree, OutboxAgrees, Identities, Processes, Records, Safety,
        FramesAgree;
  }

  lemma {:induction false} CacheRunKeeps(s: Setup, w: World, run: seq<Step>, k: Key)
    requires Inv(s, w) && ValidRun(s, w, run) && k in w.mem.cache && Final(s, w, run).now < w.mem.cache[k].expiresAt
    ensures k in Final(s, w, run).mem.cache && Final(s, w, run).mem.cache[k] == w.mem.cache[k]
    decreases |run|
  {
    hide Inv, Apply, Enabled;
    if run != [] {
      var v := Apply(s, w, run[0]);
      StepKeeps(s, w, run[0]);
      ClockRuns(s, v, run[1..]);
      CacheStepKeeps(s, w, run[0], k);
      CacheRunKeeps(s, v, run[1..], k);
    }
  }

  lemma {:induction false} ClockRuns(s: Setup, w: World, run: seq<Step>)
    requires ValidRun(s, w, run)
    ensures w.now <= Final(s, w, run).now
    decreases |run|
  {
    hide Apply, Enabled;
    if run != [] {
      ClockMoves(s, w, run[0]);
      ClockRuns(s, Apply(s, w, run[0]), run[1..]);
    }
  }

  /** The step by which transaction `id` completes with a response for the cloud. */
  ghost predicate Completes(w: World, v: World, id: Id, response: Bytes) {
    && id in w.mem.live && w.mem.live[id].respond && id !in v.mem.live
    && id in v.mem.retired && v.mem.retired[id].state.Completed? && v.mem.retired[id].payload == Some(response)
  }

  /** Whatever step completes a transaction with a response, that response is now cached. */
  lemma CompletionCaches(s: Setup, w: World, step: Step, id: Id, response: Bytes)
    requires Inv(s, w) && Enabled(s, w, step) && Completes(w, Apply(s, w, step), id, response)
    ensures var v := Apply(s, w, step);
            var key := w.mem.live[id].key;
            && v.now == w.now
            && key in v.mem.cache
            && v.mem.cache[key] == CacheEntry(response, w.now + Lifetime(s.cfg, w.mem.live[id].command))
  {
    hide Inv, Apply, Enabled;
    ExecGrows(s, w, id);
    IdFacts(s, w, id);
    var v := Apply(s, w, step);
    if Subject(step).Some? {
      SubjectTouches(s, w, step);
      SubjectRest(s, w, step);
      SubjectSettles(s, w, step);
      assert Subject(step) != Some(id) ==> SameEntry(w.mem, v.mem, id);
    } else {
      OthersUntouched(s, w, step, id);
    }
  }

  /**
   * No re-execution inside the time to live: once a request completed with a response, every repeat
   * of it (same session, equivalent id, whatever its method) is answered with exactly that response
   * and nothing else changes, until the entry expires and whatever else happens meanwhile.
   */
  lemma NoReexecution(s: Setup, w: World, step: Step, id: Id, response: Bytes, run: seq<Step>,
                      again: Id, session: string, raw: RawId, command: string, timeout: Time, changing: bool)
    requires Reachable(s, w) && Enabled(s, w, step) && Completes(w, Apply(s, w, step), id, response)
    requires ValidRun(s, Apply(s, w, step), run)
    requires Final(s, Apply(s, w, step), run).now < w.now + Lifetime(s.cfg, w.mem.live[id].command)
    requires RequestKey(session, raw) == Some(w.mem.live[id].key) && (command == "upgrade" ==> changing)
    ensures var v := Final(s, Apply(s, w, step), run);
            && w.mem.live[id].key !in v.mem.active
            && CreateTransaction(s.cfg, v.now, v.mem, again, session, raw, true, command, timeout, changing)
               == (v.mem, Err(CachedResponse(response)))
  {
    hide Inv, Apply, Enabled;
    ReachableInv(s, w);
    CompletionCaches(s, w, step, id, response);
    StepKeeps(s, w, step);
    var v := Apply(s, w, step);
    var z := Final(s, v, run);
    var key := w.mem.live[id].key;
    CacheRunKeeps(s, v, run, key);
    RunKeeps(s, v, run);
    FreshKeyIsFree(s, z, key, id);
    NoKeyNotCached(s, z);
    RepeatIsReplayed(s.cfg, z.now, z.mem, again, session, raw, command, timeout, changing, response);
  }

  lemma NoKeyNotCached(s: Setup, w: World)
    requires Inv(s, w)
    ensures NoKey !in w.mem.cache
  {
    hide Identities, Processes, Records, Safety, FramesAgree, LockAgrees, OutboxAgrees, TimersAgree, TablesAgree;
  }

  lemma RepeatIsReplayed(cfg: Config, now: Time, m: Mem, id: Id, session: string, raw: RawId, command: string,
                         timeout: Time, changing: bool, response: Bytes)
    requires RequestKey(session, raw).Some? && CacheGet(m.cache, RequestKey(session, raw).value, now) == Some(response)
    requires NoKey !in m.cache && (command == "upgrade" ==> changing)
    ensures CreateTransaction(cfg, now, m, id, session, raw, true, command, timeout, changing) ==
              (m, Err(CachedResponse(response)))
  {
  }

  /** The cache sweeper leaves nothing expired, and changes what no present or later lookup returns. */
  lemma SweepIsInvisible(cache: map<Key, CacheEntry>, swept: Time, key: Key, now: Time)
    requires swept <= now
    ensures CacheGet(CacheSweep(cache, swept), key, now) == CacheGet(cache, key, now)
    ensures key in CacheSweep(cache, swept) <==> key in cache && swept < cache[key].expiresAt
  {
  }

  /** No key is both active and freshly cached, and the empty key of notifications is never cached. */
  lemma CacheSafety(s: Setup, w: World, k: Key)
    requires Reachable(s, w)
    ensures !(k in w.mem.active && CacheGet(w.mem.cache, k, w.now).Some?)
    ensures NoKey !in w.mem.cache
  {
    ReachableInv(s, w);
    hide Identities, Processes, Records, Safety, FramesAgree, LockAgrees, OutboxAgrees, TimersAgree, TablesAgree;
  }
}
