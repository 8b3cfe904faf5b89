/** Who is answered, with what: every transaction that ends, every request, every repeat, every time-out. */
module AnswerTheorems {
  import opened Common
  import opened Transactions
  import opened CanonicalKeys
  import opened Manager
  import opened ManagerInvariants
  import opened OperationStore
  import opened FrameHandler
  import opened World
  import opened WorldInvariants
  import opened WorldSteps
  import opened WorldEffects
  import opened RequestTheorems
  import opened Endings
  import opened ResponseTheorems
  import opened AdmissionTheorems

  // ----- what every step keeps -----

  /** Every push of a transaction is its answer. */
  ghost predicate OwnAnswers(retired: map<Id, Tx>, pushed: seq<Push>) {
    forall i :: 0 <= i < |pushed| && pushed[i].origin.FromTransaction? ==>
      pushed[i].origin.id in retired && AnswerTo(pushed[i].origin.id, retired[pushed[i].origin.id]) == [pushed[i]]
  }

  ghost predicate Sent(pushed: seq<Push>, answer: seq<Push>) {
    answer == [] || exists i :: 0 <= i < |pushed| && [pushed[i]] == answer
  }

  /** Every transaction that ended has its answer, if it has one, among the pushes. */
  ghost predicate EndsAnswered(retired: map<Id, Tx>, pushed: seq<Push>) {
    forall id :: id in retired ==> Sent(pushed, AnswerTo(id, retired[id]))
  }

  /** The key of a transaction is the key of its session and id. */
  ghost predicate KeysFit(live: map<Id, Tx>) {
    forall id :: id in live ==> RequestKey(live[id].session, live[id].cloudId) == Some(live[id].key)
  }

  ghost predicate Answers(s: Setup, w: World) {
    && TimesOut(s.cfg, w.mem)
    && OwnAnswers(w.mem.retired, w.mem.pushed) && EndsAnswered(w.mem.retired, w.mem.pushed)
    && KeysFit(w.mem.live)
  }

  lemma SentGrows(pushed: seq<Push>, more: seq<Push>, answer: seq<Push>)
    requires pushed <= more && Sent(pushed, answer)
    ensures Sent(more, answer)
  {
    if answer != [] {
      var i :| 0 <= i < |pushed| && [pushed[i]] == answer;
      assert [more[i]] == answer;
    }
  }

  lemma OwnGrow(retired: map<Id, Tx>, pushed: seq<Push>, id: Id, tx: Tx)
    requires OwnAnswers(retired, pushed) && EndsAnswered(retired, pushed) && id !in retired
    ensures var more := pushed + AnswerTo(id, tx);
            OwnAnswers(retired[id := tx], more) && EndsAnswered(retired[id := tx], more)
  {
    var more := pushed + AnswerTo(id, tx);
    assert AnswerTo(id, tx) != [] ==> [more[|pushed|]] == AnswerTo(id, tx);
    forall k | k in retired ensures Sent(more, AnswerTo(k, retired[k])) {
      SentGrows(pushed, more, AnswerTo(k, retired[k]));
    }
  }

  lemma OthersEntries(m: Mem, n: Mem, id: Id)
    requires Touches(m, n, id) && m.live.Keys !! m.retired.Keys && n.live.Keys !! n.retired.Keys
    ensures id !in m.live || id in n.live ==> n.retired == m.retired
    ensures id in m.live && id !in n.live ==>
              id in n.retired && id !in m.retired && n.retired == m.retired[id := n.retired[id]]
    ensures KeysFit(m.live) ==> KeysFit(n.live)
  {
    hide RequestKey;
    forall i | i != id
      ensures (i in n.live <==> i in m.live) && (i in m.live ==> n.live[i] == m.live[i])
      ensures (i in n.retired <==> i in m.retired) && (i in m.retired ==> n.retired[i] == m.retired[i])
    {
      assert SameEntry(m, n, i);
    }
    if id !in m.live { assert SameEntry(m, n, id); }
    if id !in m.live || id in n.live {
      assert n.retired == m.retired;
    } else {
      assert n.retired == m.retired[id := n.retired[id]];
    }
  }

  lemma Disjoint(s: Setup, w: World)
    requires Inv(s, w)
    ensures w.mem.live.Keys !! w.mem.retired.Keys && w.mem.pending.Keys <= w.mem.live.Keys
  {
    hide Identities, Processes, Records, Safety, FramesAgree, TablesAgree, LockAgrees, TimersAgree, CacheAgrees,
        OutboxAgrees;
  }

  lemma SubjectAnswers(s: Setup, w: World, step: Step)
    requires Inv(s, w) && Enabled(s, w, step) && Subject(step).Some? && Answers(s, w)
    ensures Answers(s, Apply(s, w, step))
  {
    hide Inv, Apply, Enabled, Subject, Touches, TimesOut, OwnAnswers, EndsAnswered, KeysFit, AnswerTo;
    var v := Apply(s, w, step);
    var id := Subject(step).value;
    SubjectSettles(s, w, step);
    SubjectTouches(s, w, step);
    StepKeeps(s, w, step);
    Disjoint(s, w);
    Disjoint(s, v);
    OthersEntries(w.mem, v.mem, id);
    if id in w.mem.live && id !in v.mem.live {
      OwnGrow(w.mem.retired, w.mem.pushed, id, v.mem.retired[id]);
    }
  }

  lemma FramePushes(pushed: seq<Push>, more: seq<Push>, retired: map<Id, Tx>)
    requires OwnAnswers(retired, pushed) && EndsAnswered(retired, pushed)
    requires more == pushed || (|more| == |pushed| + 1 && more[..|pushed|] == pushed &&
               more[|pushed|].origin.FromFrame?)
    ensures OwnAnswers(retired, more) && EndsAnswered(retired, more)
  {
    hide AnswerTo;
    assert pushed <= more;
    assert forall i :: 0 <= i < |pushed| ==> more[i] == pushed[i];
    forall id | id in retired ensures Sent(more, AnswerTo(id, retired[id])) {
      SentGrows(pushed, more, AnswerTo(id, retired[id]));
    }
  }

  lemma OpenedAnswers(cfg: Config, m: Mem, n: Mem, id: Id)
    requires TimesOut(cfg, m) && KeysFit(m.live) && id !in m.pending
    requires id in n.live && n.live == m.live[id := n.live[id]] && n.retired == m.retired && n.pending == m.pending
    requires RequestKey(n.live[id].session, n.live[id].cloudId) == Some(n.live[id].key)
    ensures TimesOut(cfg, n) && KeysFit(n.live)
  {
    hide RequestKey;
  }

  lemma FrameAnswers(s: Setup, w: World, v: World, id: Id, f: Inbound)
    requires Inv(s, w) && FrameEffect(w, v, id, f) && id !in w.used && Answers(s, w)
    ensures Answers(s, v)
  {
    hide Inv, TimesOut, OwnAnswers, EndsAnswered, KeysFit, RequestKey;
    NewIdFacts(s, w, id);
    Disjoint(s, w);
    FramePushes(w.mem.pushed, v.mem.pushed, w.mem.retired);
    if FrameOpened(w, v, id, f) {
      OpenedAnswers(s.cfg, w.mem, v.mem, id);
    } else {
      SameTimes(s.cfg, w.mem, v.mem);
    }
  }

  lemma SameTimes(cfg: Config, m: Mem, n: Mem)
    requires n.live == m.live && n.retired == m.retired && n.pending == m.pending
    ensures TimesOut(cfg, n) == TimesOut(cfg, m)
  {
  }

  lemma AnswersStep(s: Setup, w: World, step: Step)
    requires Inv(s, w) && Enabled(s, w, step) && Answers(s, w)
    ensures Answers(s, Apply(s, w, step))
  {
    if Subject(step).Some? {
      hide Inv, Apply, Enabled, Answers;
      SubjectAnswers(s, w, step);
    } else if step.Frame? {
      hide Inv, ReceiveFrame, FrameEffect, Answers;
      FrameForm(s, w, step.f, step.degraded, step.id, step.text);
      FrameAnswers(s, w, Apply(s, w, step), step.id, step.f);
    } else {
      hide Inv, Apply, Enabled, TimesOut, OwnAnswers, EndsAnswered, KeysFit;
      QuietStep(s, w, step);
      SameTimes(s.cfg, w.mem, Apply(s, w, step).mem);
    }
  }

  lemma {:induction false} AnswersRun(s: Setup, w: World, run: seq<Step>)
    requires Inv(s, w) && ValidRun(s, w, run) && Answers(s, w)
    ensures Inv(s, Final(s, w, run)) && Answers(s, Final(s, w, run))
    decreases |run|
  {
    hide Inv, Apply, Enabled, Answers;
    if run != [] {
      AnswersStep(s, w, run[0]);
      StepKeeps(s, w, run[0]);
      AnswersRun(s, Apply(s, w, run[0]), run[1..]);
    }
  }

  lemma StartAnswers(s: Setup, before: map<Id, Rec>, ops: seq<Rec>, w: World)
    requires Started(s, before, ops, w)
    ensures Answers(s, w)
  {
    hide ActiveQuery;
  }

  lemma ReachableAnswers(s: Setup, w: World)
    requires Reachable(s, w)
    ensures Inv(s, w) && Answers(s, w)
  {
    hide Inv, Answers, ValidRun, Final, Started;
    var before, ops, w0, run :| Leads(s, before, ops, w0, run, w);
    StartKeeps(s, before, ops, w0);
    StartAnswers(s, before, ops, w0);
    AnswersRun(s, w0, run);
  }

  // ----- every end is answered -----

  /**
   * A transaction that ended with something to say to somebody who asked, in whatever final state, is answered
   * with exactly that, once; any other transaction that ended is not answered at all.
   */
  lemma EveryEndIsAnswered(s: Setup, w: World, id: Id)
    requires Reachable(s, w) && id in w.mem.retired
    ensures var tx := w.mem.retired[id];
            var pushed := w.mem.pushed;
            if tx.respond && tx.payload.Some? && tx.payload.value != [] then
              exists i :: 0 <= i < |pushed| && pushed[i] == Push(FromTransaction(id), tx.session, tx.payload.value) &&
                forall k :: 0 <= k < |pushed| && pushed[k].origin == FromTransaction(id) ==> k == i
            else
              forall k :: 0 <= k < |pushed| ==> pushed[k].origin != FromTransaction(id)
  {
    hide Inv, Reachable, TimesOut, KeysFit;
    ReachableAnswers(s, w);
    PushesDiffer(s, w);
    var answer := AnswerTo(id, w.mem.retired[id]);
    assert Sent(w.mem.pushed, answer);
    if answer != [] {
      var i :| 0 <= i < |w.mem.pushed| && [w.mem.pushed[i]] == answer;
      assert [w.mem.pushed[i]][0] == answer[0];
      assert w.mem.pushed[i] == Push(FromTransaction(id), w.mem.retired[id].session, w.mem.retired[id].payload.value);
    }
  }

  lemma PushesDiffer(s: Setup, w: World)
    requires Inv(s, w)
    ensures forall i, k :: 0 <= i < k < |w.mem.pushed| ==> w.mem.pushed[i].origin != w.mem.pushed[k].origin
  {
    hide Identities, Processes, Records, Safety, FramesAgree, StatesAgree, TablesAgree, BuffersAgree, LockAgrees,
        TimersAgree,
        CacheAgrees;
  }

  // ----- time-outs -----

  /**
   * Over any later run, a transaction that timed out ended with the time-out text for the id of the very frame
   * that opened it if that frame wanted an answer, and with nothing otherwise.
   */
  lemma TimeoutsNameTheirRequest(s: Setup, w: World, step: Step, run: seq<Step>, id: Id)
    requires Reachable(s, w) && Enabled(s, w, step) && step.Frame? && ValidRun(s, Apply(s, w, step), run)
    requires var v := Final(s, Apply(s, w, step), run);
             id in v.mem.retired && v.mem.retired[id].state.TimedOut? && id in v.frameOf && v.frameOf[id] == w.frames
    ensures Final(s, Apply(s, w, step), run).mem.retired[id].payload ==
            if IsNotification(step.f.id) then None else Some(s.cfg.timeoutText(step.f.id))
  {
    hide Inv, Reachable, Apply, Enabled, OwnAnswers, EndsAnswered, KeysFit, RequestKey, IsNotification;
    ReachableAnswers(s, w);
    FrameStepSession(s, w, step);
    AnswersStep(s, w, step);
    StepKeeps(s, w, step);
    CameFromRun(s, Apply(s, w, step), run, w.frames, step.f);
    AnswersRun(s, Apply(s, w, step), run);
  }

  // ----- every request is answered, or still under way -----

  lemma FrameOfStays(s: Setup, w: World, step: Step, id: Id)
    requires Inv(s, w) && Enabled(s, w, step) && id in w.frameOf
    ensures id in Apply(s, w, step).frameOf && Apply(s, w, step).frameOf[id] == w.frameOf[id]
  {
    if Subject(step).Some? {
      hide Inv, Apply, Enabled;
      SubjectRest(s, w, step);
    } else if step.Frame? {
      hide Inv, ReceiveFrame;
      FrameForm(s, w, step.f, step.degraded, step.id, step.text);
      NewIdFacts(s, w, step.id);
    } else {
      hide Inv, Apply, Enabled;
      QuietStep(s, w, step);
    }
  }

  lemma {:induction false} RunExtends(s: Setup, w: World, run: seq<Step>, id: Id)
    requires Inv(s, w) && ValidRun(s, w, run)
    ensures w.mem.pushed <= Final(s, w, run).mem.pushed
    ensures id in w.frameOf ==> id in Final(s, w, run).frameOf && Final(s, w, run).frameOf[id] == w.frameOf[id]
    decreases |run|
  {
    hide Inv, Apply, Enabled;
    if run != [] {
      var v := Apply(s, w, run[0]);
      PushesGrow(s, w, run[0]);
      if id in w.frameOf { FrameOfStays(s, w, run[0], id); }
      StepKeeps(s, w, run[0]);
      RunExtends(s, v, run[1..], id);
    }
  }

  /** Frame `n` has been answered. */
  ghost predicate IsAnswered(w: World, n: nat) {
    exists i :: 0 <= i < |w.mem.pushed| && Answered(w, w.mem.pushed[i]) == Some(n)
  }

  /** Transaction `id` was opened for frame `n` and is not done, or ended with nothing to say. */
  ghost predicate UnderWay(w: World, n: nat, id: Id) {
    id in w.frameOf && w.frameOf[id] == n &&
    (id in w.mem.live || (id in w.mem.retired &&
        (w.mem.retired[id].payload == None || w.mem.retired[id].payload == Some([]))))
  }

  lemma AnsweredStays(s: Setup, w: World, v: World, run: seq<Step>, f: Inbound, answer: Bytes)
    requires OnlyAnswered(w, v, f, answer) && Inv(s, v) && ValidRun(s, v, run)
    ensures IsAnswered(Final(s, v, run), w.frames)
  {
    hide Inv;
    RunExtends(s, v, run, 0);
    var i := |w.mem.pushed|;
    assert v.mem.pushed[i] == Push(FromFrame(w.frames), f.session, answer);
    assert Final(s, v, run).mem.pushed[i] == v.mem.pushed[i];
  }

  lemma OpenedIsAnswered(s: Setup, w: World, v: World, run: seq<Step>, f: Inbound, id: Id)
    requires OnlyOpened(w, v, f, id) && Inv(s, v) && Answers(s, v) && ValidRun(s, v, run) && CameFrom(v, w.frames, f)
    requires !IsNotification(f.id)
    ensures IsAnswered(Final(s, v, run), w.frames) || UnderWay(Final(s, v, run), w.frames, id)
  {
    hide Inv, Answers, RequestKey, CameFrom, IsNotification;
    var z := Final(s, v, run);
    RunExtends(s, v, run, id);
    ExecGrows(s, v, id);
    LifecycleFrom(s, v, run, id);
    CameFromRun(s, v, run, w.frames, f);
    AnswersRun(s, v, run);
    if id in z.mem.retired { RetiredIsAnswered(s, z, w.frames, f, id); }
  }

  lemma RetiredIsAnswered(s: Setup, w: World, n: nat, f: Inbound, id: Id)
    requires Answers(s, w) && CameFrom(w, n, f) && id in w.mem.retired && id in w.frameOf && w.frameOf[id] == n
    requires !IsNotification(f.id)
    ensures IsAnswered(w, n) || UnderWay(w, n, id)
  {
    hide TimesOut, OwnAnswers, KeysFit, RequestKey, IsNotification;
    var answer := AnswerTo(id, w.mem.retired[id]);
    assert Sent(w.mem.pushed, answer);
    if answer != [] {
      var i :| 0 <= i < |w.mem.pushed| && [w.mem.pushed[i]] == answer;
      assert [w.mem.pushed[i]][0] == answer[0];
      assert Answered(w, w.mem.pushed[i]) == Some(n);
    }
  }

  /**
   * Every request with an id that is not over the absolute limit is, over any later run, answered, or its
   * transaction is still under way, or that transaction ended with nothing to say.
   */
  lemma EveryRequestIsAnswered(s: Setup, w: World, step: Step, run: seq<Step>)
    requires Reachable(s, w) && Enabled(s, w, step) && step.Frame? && ValidRun(s, Apply(s, w, step), run)
    requires step.f.size <= s.limits.absolute && !IsNotification(step.f.id)
    ensures var v := Final(s, Apply(s, w, step), run); IsAnswered(v, w.frames) || UnderWay(v, w.frames, step.id)
  {
    hide Inv, Reachable, Answers, IsAnswered, UnderWay, ReceiveFrame, OnlyAnswered, OnlyOpened, CameFrom,
        IsNotification;
    ReachableAnswers(s, w);
    var v := Apply(s, w, step);
    FrameStepSession(s, w, step);
    AnswersStep(s, w, step);
    StepKeeps(s, w, step);
    FrameIsTaken(s, w, step.f, step.degraded, step.id, step.text);
    if OnlyOpened(w, v, step.f, step.id) {
      OpenedIsAnswered(s, w, v, run, step.f, step.id);
    } else {
      var answer :| OnlyAnswered(w, v, step.f, answer);
      AnsweredStays(s, w, v, run, step.f, answer);
    }
  }

  // ----- repeats -----

  /**
   * The repeat of a completed request: once a transaction completed with a response, and until its lifetime is
   * over, a frame with an equal id on the same session is answered with exactly that response, and does nothing
   * else, whatever method it names and whatever happened meanwhile.
   */
  lemma RepeatsAreReplayed(s: Setup, w: World, step: Step, id: Id, response: Bytes, run: seq<Step>,
                           f: Inbound, again: Id, text: Bytes)
    requires Reachable(s, w) && Enabled(s, w, step) && Completes(w, Apply(s, w, step), id, response)
    requires ValidRun(s, Apply(s, w, step), run)
    requires Final(s, Apply(s, w, step), run).now < w.now + Lifetime(s.cfg, w.mem.live[id].command)
    requires Executable(s.limits, false, f) && RequestKey(f.session, f.id).Some?
    requires f.session == w.mem.live[id].session && SameId(f.id, w.mem.live[id].cloudId)
    ensures var v := Final(s, Apply(s, w, step), run);
            OnlyAnswered(v, ReceiveFrame(s, v, f, false, again, text), f, response)
  {
    hide Inv, Reachable, Apply, Enabled, Executable, ReceiveFrame, OnlyAnswered, RequestKey;
    hide TimesOut, OwnAnswers, EndsAnswered;
    ReachableAnswers(s, w);
    SameRequestKey(f.session, f.id, w.mem.live[id].cloudId);
    CompletionCaches(s, w, step, id, response);
    StepKeeps(s, w, step);
    var v := Apply(s, w, step);
    CacheRunKeeps(s, v, run, w.mem.live[id].key);
    RefusedFrame(s, Final(s, v, run), f, again, text);
  }

  lemma SameRequestKey(session: string, a: RawId, b: RawId)
    requires SameId(a, b) && RequestKey(session, a).Some? && RequestKey(session, b).Some?
    ensures RequestKey(session, a) == RequestKey(session, b) && !IsNotification(a)
  {
    SameIdSameKey(session, a, b);
  }

  // ----- results of agents -----

  /**
   * The result of a transaction in flight ends it: completed with that response, out of every table, its lock
   * free, and answered if somebody asked and there is something to say.
   */
  lemma ResultEnds(s: Setup, w: World, id: Id, response: Option<Bytes>)
    requires Reachable(s, w) && id in w.mem.live && w.mem.live[id].state.InFlight? && !w.mem.live[id].handoff
    ensures EndsCompleted(w.mem, Complete(s.cfg, w.now, w.mem, id, response).0, id, response)
    ensures Complete(s.cfg, w.now, w.mem, id, response).1 == None
  {
    hide Inv, Reachable, Complete, EndsCompleted;
    ReachableInv(s, w);
    NoKeyInactive(s, w);
    CompleteEnds(s.cfg, w.now, w.mem, id, response);
  }

  ghost predicate EndsCompleted(m: Mem, n: Mem, id: Id, response: Option<Bytes>) {
    && id in m.live
    && n.live == m.live - {id} && id !in n.pending
    && n.retired == m.retired[id := m.live[id].(state := Completed, payload := response, timer := false)]
    && n.active == m.active - {m.live[id].key}
    && (if m.holder == Some(id) then !n.locked && n.holder == None && n.owner == LockNone
        else n.locked == m.locked && n.holder == m.holder && n.owner == m.owner)
    && (if m.live[id].respond && response.Some? && response.value != []
        then n.pushed == m.pushed + [Push(FromTransaction(id), m.live[id].session, response.value)]
        else n.pushed == m.pushed)
  }

  lemma CompleteEnds(cfg: Config, now: Time, m: Mem, id: Id, response: Option<Bytes>)
    requires id in m.live && m.live[id].state.InFlight? && !m.live[id].handoff && NoKey !in m.active
    ensures EndsCompleted(m, Complete(cfg, now, m, id, response).0, id, response)
    ensures Complete(cfg, now, m, id, response).1 == None
  {
    assert m.live[id].key.NoKey? ==> m.active - {m.live[id].key} == m.active;
  }

  lemma NoKeyInactive(s: Setup, w: World)
    requires Inv(s, w)
    ensures NoKey !in w.mem.active
  {
    hide Identities, Processes, Records, Safety, FramesAgree, StatesAgree, BuffersAgree, LockAgrees, TimersAgree,
        CacheAgrees,
        OutboxAgrees;
  }

  /** The first result for a transaction that is not in flight yet, or in a handoff, is buffered for it. */
  lemma ResultIsBuffered(cfg: Config, now: Time, m: Mem, id: Id, response: Option<Bytes>)
    requires id in m.live && id !in m.pending
    requires m.live[id].handoff || m.live[id].state in {Created, PreparingDispatch, PendingPublish}
    ensures var (n, e) := Complete(cfg, now, m, id, response);
            e == None && n == m.(pending := m.pending[id := Reply(response, Completed)])
  {
  }
}
