/**
 * The whole way of a response: a frame comes in on a session, the request manager or the frame handler
 * pushes the answer, the scheduler queues it, and the writer of some session sends it or gives it up.
 */
module EndToEnd {
  import opened Common
  import opened CanonicalKeys
  import opened Manager
  import opened FrameHandler
  import opened OperationStore
  import opened World
  import opened WorldInvariants
  import opened WorldSteps
  import opened WorldEffects
  import opened ResponseTheorems
  import Scheduler
  import opened SchedulerTheorems
  import Transport

  /**
   * `from` gives, for each response the scheduler accepted, its position among all pushes, and `asked`
   * the inbound frames.
   */
  datatype Joint = Joint(w: World, n: Transport.Net, from: seq<nat>, asked: seq<Inbound>)

  datatype Event = OfManager(step: Step) | OfClient(move: Transport.Move)

  function AsMessage(p: Push): Scheduler.Message {
    Scheduler.Message(p.session, 0, p.payload)
  }

  /** Push number `at` reaches the scheduler, which may be full. */
  function Produce(j: Joint, at: nat): Joint
    requires at < |j.w.mem.pushed| && |j.n.sched.queues| == Scheduler.LEVELS
  {
    var msg := AsMessage(j.w.mem.pushed[at]);
    j.(n := Transport.Perform(j.n, Transport.Produce(msg)),
       from := if Scheduler.Push(j.n.sched, msg).1.None? then j.from + [at] else j.from)
  }

  /** Responses come from the manager and the handler only; other producers stay below Priority 0. */
  ghost predicate Possible(s: Setup, j: Joint, e: Event) {
    |j.n.sched.queues| == Scheduler.LEVELS &&
    match e
    case OfManager(step) => Enabled(s, j.w, step)
    case OfClient(move) => Transport.CanMove(j.n, move) && (move.Produce? ==> move.msg.priority != 0)
  }

  /** A manager step pushes at most one message, and the scheduler gets it at once. */
  ghost function Happens(s: Setup, j: Joint, e: Event): Joint
    requires Possible(s, j, e)
  {
    match e
    case OfManager(step) =>
      var v := j.(w := Apply(s, j.w, step), asked := if step.Frame? then j.asked + [step.f] else j.asked);
      if |j.w.mem.pushed| < |v.w.mem.pushed| then Produce(v, |j.w.mem.pushed|) else v
    case OfClient(move) => j.(n := Transport.Perform(j.n, move))
  }

  // ----- what every event keeps -----

  ghost predicate Linked(pushed: seq<Push>, msgs: seq<Scheduler.Message>, from: seq<nat>) {
    && |from| == |msgs|
    && (forall i, k :: 0 <= i < k < |from| ==> from[i] < from[k])
    && (forall i :: 0 <= i < |from| ==> from[i] < |pushed| && msgs[i] == AsMessage(pushed[from[i]]))
  }

  ghost predicate Sessions(w: World, asked: seq<Inbound>) {
    |asked| == w.frames && forall n :: 0 <= n < |asked| ==> CameFrom(w, n, asked[n])
  }

  ghost predicate ClientInv(n: Transport.Net) {
    && Scheduler.Valid(n.sched) && Transport.ResponsesSafe(n) && Transport.Orderly(n)
    && forall m: Scheduler.Message :: m.priority == 0 ==> Transport.Counted(n, m)
  }

  ghost predicate JointInv(s: Setup, j: Joint) {
    && Inv(s, j.w) && ClientInv(j.n) && Sessions(j.w, j.asked)
    && Linked(j.w.mem.pushed, Of(0, j.n.pushed), j.from)
  }

  lemma SessionsStep(s: Setup, w: World, step: Step, asked: seq<Inbound>)
    requires Inv(s, w) && Enabled(s, w, step) && Sessions(w, asked)
    ensures Sessions(Apply(s, w, step), if step.Frame? then asked + [step.f] else asked)
  {
    hide Inv, Apply, Enabled, CameFrom;
    PushesGrow(s, w, step);
    forall n | 0 <= n < |asked| ensures CameFrom(Apply(s, w, step), n, asked[n]) {
      CameFromStep(s, w, step, n, asked[n]);
    }
    if step.Frame? { FrameStepSession(s, w, step); }
  }

  lemma ClientMoves(n: Transport.Net, move: Transport.Move)
    requires ClientInv(n) && Transport.CanMove(n, move)
    ensures ClientInv(Transport.Perform(n, move))
  {
    hide Scheduler.Valid, Transport.ResponsesSafe, Transport.Orderly, Transport.Counted;
    hide Transport.Perform, Transport.CanMove;
    Transport.QueuesStayValid(n, move);
    Transport.MoveKeepsResponses(n, move);
    Transport.MoveKeepsOrder(n, move);
    Scheduler.ValidShape(n.sched);
    Scheduler.ValidShape(Transport.Perform(n, move).sched);
    forall m: Scheduler.Message | m.priority == 0 ensures Transport.Counted(Transport.Perform(n, move), m) {
      Transport.MoveCounts(n, move, m);
    }
  }

  lemma ClientShape(n: Transport.Net)
    requires ClientInv(n)
    ensures |n.sched.queues| == Scheduler.LEVELS
  {
    hide Transport.Counted, Transport.ResponsesSafe;
  }

  lemma LinkGrows(pushed: seq<Push>, more: seq<Push>, msgs: seq<Scheduler.Message>, from: seq<nat>)
    requires Linked(pushed, msgs, from) && pushed <= more
    ensures Linked(more, msgs, from)
    ensures |pushed| < |more| ==> Linked(more, msgs + [AsMessage(more[|pushed|])], from + [|pushed|])
  {
  }

  lemma ProduceLinks(j: Joint, was: seq<Push>)
    requires ClientInv(j.n) && Linked(was, Of(0, j.n.pushed), j.from)
    requires |was| < |j.w.mem.pushed| && was <= j.w.mem.pushed
    ensures ClientInv(Produce(j, |was|).n)
    ensures Linked(j.w.mem.pushed, Of(0, Produce(j, |was|).n.pushed), Produce(j, |was|).from)
  {
    hide ClientInv, Linked, Scheduler.Push, Of;
    ClientShape(j.n);
    var msg := AsMessage(j.w.mem.pushed[|was|]);
    ClientMoves(j.n, Transport.Produce(msg));
    LinkGrows(was, j.w.mem.pushed, Of(0, j.n.pushed), j.from);
    OfSplits(0, j.n.pushed, [msg]);
    OfOne(0, msg);
  }

  lemma OtherMoveLinks(j: Joint, move: Transport.Move)
    requires ClientInv(j.n) && Transport.CanMove(j.n, move) && (move.Produce? ==> move.msg.priority != 0)
    ensures Of(0, Transport.Perform(j.n, move).pushed) == Of(0, j.n.pushed)
  {
    hide ClientInv, Of, Scheduler.Push, Scheduler.TryDequeue;
    ClientShape(j.n);
    if move.Produce? {
      OfSplits(0, j.n.pushed, [move.msg]);
      OfOne(0, move.msg);
    }
  }

  lemma ProducesOnly(j: Joint, at: nat)
    requires at < |j.w.mem.pushed| && |j.n.sched.queues| == Scheduler.LEVELS
    ensures Produce(j, at).w == j.w && Produce(j, at).asked == j.asked
    ensures Produce(j, at).n == Transport.Perform(j.n, Transport.Produce(AsMessage(j.w.mem.pushed[at])))
  {
  }

  /** Every event of the manager or the client keeps the joint invariant. */
  lemma EventKeeps(s: Setup, j: Joint, e: Event)
    requires JointInv(s, j) && Possible(s, j, e)
    ensures JointInv(s, Happens(s, j, e))
  {
    hide Inv, ClientInv, Linked, Sessions, Of, Enabled, Apply, Transport.Perform, Transport.CanMove, Produce;
    match e {
      case OfManager(step) =>
        PushesGrow(s, j.w, step);
        StepKeeps(s, j.w, step);
        SessionsStep(s, j.w, step, j.asked);
        var v := j.(w := Apply(s, j.w, step), asked := if step.Frame? then j.asked + [step.f] else j.asked);
        LinkGrows(j.w.mem.pushed, v.w.mem.pushed, Of(0, j.n.pushed), j.from);
        if |j.w.mem.pushed| < |v.w.mem.pushed| {
          ProduceLinks(v, j.w.mem.pushed);
          ProducesOnly(v, |j.w.mem.pushed|);
        }
      case OfClient(move) =>
        ClientMoves(j.n, move);
        OtherMoveLinks(j, move);
    }
  }

  // ----- runs -----

  ghost predicate Unfolds(s: Setup, j: Joint, events: seq<Event>)
    decreases |events|
  {
    events == [] || (Possible(s, j, events[0]) && Unfolds(s, Happens(s, j, events[0]), events[1..]))
  }

  ghost function Outcome(s: Setup, j: Joint, events: seq<Event>): Joint
    requires Unfolds(s, j, events)
    decreases |events|
  {
    if events == [] then j else Outcome(s, Happens(s, j, events[0]), events[1..])
  }

  lemma {:induction false} EventsKeep(s: Setup, j: Joint, events: seq<Event>)
    requires JointInv(s, j) && Unfolds(s, j, events)
    ensures JointInv(s, Outcome(s, j, events))
    decreases |events|
  {
    hide JointInv, Possible, Happens;
    if events != [] {
      EventKeeps(s, j, events[0]);
      EventsKeep(s, Happens(s, j, events[0]), events[1..]);
    }
  }

  /** A process that just started, with an idle client. */
  ghost predicate JustStarted(s: Setup, j: Joint) {
    && (exists before, ops :: Started(s, before, ops, j.w))
    && (exists capacity: nat, emergencyCap: nat :: j.n == Transport.Idle(capacity, emergencyCap))
    && j.from == [] && j.asked == []
  }

  lemma JustStartedInv(s: Setup, j: Joint)
    requires JustStarted(s, j)
    ensures JointInv(s, j)
  {
    hide Inv, Started, Transport.Idle, Linked, Sessions;
    var before, ops :| Started(s, before, ops, j.w);
    var capacity: nat, emergencyCap: nat :| j.n == Transport.Idle(capacity, emergencyCap);
    StartKeeps(s, before, ops, j.w);
    NoFramesYet(s, before, ops, j.w);
    IdleClient(capacity, emergencyCap);
    OfNone(0);
    LinkNothing(j.w.mem.pushed);
  }

  lemma NoFramesYet(s: Setup, before: map<Id, Rec>, ops: seq<Rec>, w: World)
    requires Started(s, before, ops, w)
    ensures Sessions(w, [])
  {
    hide ActiveQuery;
  }

  lemma IdleClient(capacity: nat, emergencyCap: nat)
    ensures ClientInv(Transport.Idle(capacity, emergencyCap)) && Transport.Idle(capacity, emergencyCap).pushed == []
  {
    var n := Transport.Idle(capacity, emergencyCap);
    forall m: Scheduler.Message | m.priority == 0 ensures Transport.Counted(n, m) {
      assert Transport.Offers(n.fetchers, m) == {};
      assert n.sched.queues[0] == [];
    }
  }

  lemma LinkNothing(pushed: seq<Push>)
    ensures Linked(pushed, [], [])
  {
  }

  // ----- which push a response came from -----

  /** How many responses are gone before position `i` of the log. */
  function Earlier(gone: seq<Transport.Gone>, i: nat): nat
    requires i <= |gone|
  {
    |Of(0, Transport.Messages(gone[..i]))|
  }

  lemma {:induction false} PlaceInLog(gone: seq<Transport.Gone>, i: nat)
    requires i < |gone| && gone[i].msg.priority == 0
    ensures Earlier(gone, i) < |Of(0, Transport.Messages(gone))|
    ensures Of(0, Transport.Messages(gone))[Earlier(gone, i)] == gone[i].msg
    decreases |gone|
  {
    hide Of, Transport.Messages;
    var front, last := gone[..|gone| - 1], gone[|gone| - 1].msg;
    MessagesEnd(gone);
    OfSplits(0, Transport.Messages(front), [last]);
    OfOne(0, last);
    if i < |front| {
      assert front[..i] == gone[..i];
      PlaceInLog(front, i);
    } else {
      assert gone[..i] == front;
    }
  }

  lemma MessagesEnd(gone: seq<Transport.Gone>)
    requires gone != []
    ensures Transport.Messages(gone) == Transport.Messages(gone[..|gone| - 1]) + [gone[|gone| - 1].msg]
  {
  }

  lemma EarlierGrows(gone: seq<Transport.Gone>, i: nat, k: nat)
    requires i < k < |gone| && gone[i].msg.priority == 0
    ensures Earlier(gone, i) < Earlier(gone, k)
  {
    assert gone[..k][..i] == gone[..i];
    PlaceInLog(gone[..k], i);
  }

  ghost predicate Within(a: seq<Scheduler.Message>, b: seq<Scheduler.Message>) {
    forall m :: multiset(a)[m] <= multiset(b)[m]
  }

  /** `f` pairs every element of `a` with an equal element of `b`, no two with the same one. */
  ghost predicate Pairs(a: seq<Scheduler.Message>, b: seq<Scheduler.Message>, f: seq<nat>) {
    && |f| == |a|
    && (forall i :: 0 <= i < |f| ==> f[i] < |b| && b[f[i]] == a[i])
    && (forall i, k :: 0 <= i < k < |f| ==> f[i] != f[k])
  }

  lemma LastElement(a: seq<Scheduler.Message>, b: seq<Scheduler.Message>) returns (k: nat)
    requires a != [] && Within(a, b)
    ensures k < |b| && b[k] == a[|a| - 1] && Within(a[..|a| - 1], b[..k] + b[k + 1..])
  {
    var front, x := a[..|a| - 1], a[|a| - 1];
    assert a == front + [x];
    assert multiset(a)[x] <= multiset(b)[x];
    assert x in multiset(b);
    k :| 0 <= k < |b| && b[k] == x;
    assert b == b[..k] + [x] + b[k + 1..];
    forall m ensures multiset(front)[m] <= multiset(b[..k] + b[k + 1..])[m] {
      assert multiset(a)[m] <= multiset(b)[m];
    }
  }

  /** Counting suffices: a bag within another can be paired off with it. */
  lemma {:induction false} PairOff(a: seq<Scheduler.Message>, b: seq<Scheduler.Message>) returns (f: seq<nat>)
    requires Within(a, b)
    ensures Pairs(a, b, f)
    decreases |a|
  {
    hide Within;
    if a == [] {
      f := [];
    } else {
      var k := LastElement(a, b);
      var g := PairOff(a[..|a| - 1], b[..k] + b[k + 1..]);
      f := Widen(a, b, k, g);
    }
  }

  lemma Widen(a: seq<Scheduler.Message>, b: seq<Scheduler.Message>, k: nat, g: seq<nat>) returns (f: seq<nat>)
    requires a != [] && k < |b| && b[k] == a[|a| - 1] && Pairs(a[..|a| - 1], b[..k] + b[k + 1..], g)
    ensures Pairs(a, b, f)
  {
    f := seq(|a|, i requires 0 <= i < |a| => if i == |g| then k else if g[i] < k then g[i] else g[i] + 1);
    var rest := b[..k] + b[k + 1..];
    assert forall i :: 0 <= i < |rest| ==> rest[i] == b[if i < k then i else i + 1];
  }

  lemma {:induction false} OfCounts(s: seq<Scheduler.Message>, m: Scheduler.Message)
    ensures multiset(Of(0, s))[m] == if m.priority == 0 then multiset(s)[m] else 0
  {
    hide Of;
    OfNone(0);
    if s != [] {
      OfCounts(s[1..], m);
      OfHead(0, s);
      assert s == [s[0]] + s[1..];
    }
  }

  lemma GoneWithinPushed(n: Transport.Net)
    requires ClientInv(n)
    ensures Within(Of(0, Transport.Messages(n.gone)), Of(0, n.pushed))
  {
    hide Of, Transport.Messages, Transport.ResponsesSafe, Transport.Orderly, Transport.Copies;
    forall m ensures multiset(Of(0, Transport.Messages(n.gone)))[m] <= multiset(Of(0, n.pushed))[m] {
      OfCounts(Transport.Messages(n.gone), m);
      OfCounts(n.pushed, m);
      assert m.priority == 0 ==> Transport.Counted(n, m);
    }
  }

  // ----- the theorem -----

  ghost predicate IsResponse(j: Joint, i: int) {
    0 <= i < |j.n.gone| && j.n.gone[i].msg.priority == 0
  }

  /**
   * Response `i` of the log is push number `at`, unaltered; the push answers an inbound frame and carries the
   * session that frame came in on. If the response was written then to that session's socket, and if it was
   * discarded then not by that session's writer.
   */
  ghost predicate AnswersItsFrame(j: Joint, i: int, at: nat) {
    IsResponse(j, i) && at < |j.w.mem.pushed| &&
    var push := j.w.mem.pushed[at];
    var frame := Answered(j.w, push);
    && j.n.gone[i].msg == AsMessage(push)
    && frame.Some? && frame.value < |j.asked| && j.asked[frame.value].session == push.session
    && (j.n.gone[i].fate.Written? ==> SessionName(j.n.gone[i].fate.generation) == j.asked[frame.value].session)
    && (j.n.gone[i].fate.Discarded? ==> SessionName(j.n.gone[i].fate.generation) != j.asked[frame.value].session)
  }

  /** Every response has its own push and its own frame. */
  ghost predicate Accounted(j: Joint, source: map<int, nat>) {
    && (forall i :: IsResponse(j, i) ==> i in source && AnswersItsFrame(j, i, source[i]))
    && (forall i, k :: IsResponse(j, i) && IsResponse(j, k) && i != k ==>
          && source[i] != source[k]
          && Answered(j.w, j.w.mem.pushed[source[i]]) != Answered(j.w, j.w.mem.pushed[source[k]]))
  }

  /**
   * End to end, over every run: each response that left the client is the answer to an inbound frame and,
   * if written, went to the socket of the very session the frame came in on, and was discarded only by the
   * writer of another session; and different responses are different pushes that answer different frames.
   */
  lemma ResponsesEndToEnd(s: Setup, start: Joint, events: seq<Event>) returns (source: map<int, nat>)
    requires JustStarted(s, start) && Unfolds(s, start, events)
    ensures Accounted(Outcome(s, start, events), source)
  {
    hide JointInv, Unfolds, Outcome, JustStarted, Accounted;
    JustStartedInv(s, start);
    EventsKeep(s, start, events);
    source := Sources(s, Outcome(s, start, events));
  }

  lemma Sources(s: Setup, j: Joint) returns (source: map<int, nat>)
    requires JointInv(s, j)
    ensures Accounted(j, source)
  {
    hide Inv, ClientInv, JointInv, Of, Earlier, Within, AnswersItsFrame, Answered;
    var out := Of(0, Transport.Messages(j.n.gone));
    LinkOf(s, j);
    GoneWithinPushed(j.n);
    var f := PairOff(out, Of(0, j.n.pushed));
    forall i | IsResponse(j, i) ensures Earlier(j.n.gone, i) < |f| && out[Earlier(j.n.gone, i)] == j.n.gone[i].msg {
      PlaceInLog(j.n.gone, i);
    }
    source := map i | 0 <= i < |j.n.gone| && IsResponse(j, i) :: j.from[f[Earlier(j.n.gone, i)]];
    forall i | IsResponse(j, i) ensures AnswersItsFrame(j, i, source[i]) && source[i] < |j.w.mem.pushed| {
      OneResponse(s, j, i, source[i]);
    }
    forall i, k | IsResponse(j, i) && IsResponse(j, k) && i != k
      ensures source[i] != source[k]
      ensures Answered(j.w, j.w.mem.pushed[source[i]]) != Answered(j.w, j.w.mem.pushed[source[k]])
    {
      if i < k { EarlierGrows(j.n.gone, i, k); } else { EarlierGrows(j.n.gone, k, i); }
      AnswersDiffer(s, j.w);
    }
  }

  lemma OneResponse(s: Setup, j: Joint, i: int, at: nat)
    requires JointInv(s, j) && IsResponse(j, i) && at < |j.w.mem.pushed| &&
               j.n.gone[i].msg == AsMessage(j.w.mem.pushed[at])
    ensures AnswersItsFrame(j, i, at)
  {
    hide Inv, Linked, Of, CameFrom, Transport.Counted, Transport.Orderly, SessionName;
    AnswersDiffer(s, j.w);
    AnswerIsEarlier(s, j.w, at);
    var frame := Answered(j.w, j.w.mem.pushed[at]).value;
    assert CameFrom(j.w, frame, j.asked[frame]);
    AnswerCameFrom(s, j.w, frame, j.asked[frame], at);
    assert Transport.OwnSocket(j.n.gone[i]);
  }

  lemma AnswerIsEarlier(s: Setup, w: World, at: nat)
    requires Inv(s, w) && at < |w.mem.pushed| && Answered(w, w.mem.pushed[at]).Some?
    ensures Answered(w, w.mem.pushed[at]).value < w.frames
  {
    hide Inv;
    FrameNumbers(s, w);
  }

  // ----- in order, when fetch goroutines do not overlap -----

  ghost predicate CalmEvents(s: Setup, j: Joint, events: seq<Event>)
    requires Unfolds(s, j, events)
    decreases |events|
  {
    events == [] ||
    ((events[0].OfClient? ==> Transport.CalmMove(j.n, events[0].move)) &&
        CalmEvents(s, Happens(s, j, events[0]), events[1..]))
  }

  ghost predicate CalmClient(n: Transport.Net) {
    Scheduler.Valid(n.sched) && Transport.Calm(n) && Transport.Conserved(n, 0)
  }

  lemma CalmMoves(n: Transport.Net, move: Transport.Move)
    requires CalmClient(n) && Transport.CanMove(n, move) && Transport.CalmMove(n, move)
    ensures CalmClient(Transport.Perform(n, move))
  {
    hide Scheduler.Valid, Transport.Calm, Transport.Conserved, Transport.Perform, Transport.CanMove, Transport.CalmMove;
    Transport.MoveConserves(n, move, 0);
    Transport.MoveKeepsCalm(n, move);
  }

  lemma CalmEvent(s: Setup, j: Joint, e: Event)
    requires CalmClient(j.n) && Possible(s, j, e) && (e.OfClient? ==> Transport.CalmMove(j.n, e.move))
    ensures CalmClient(Happens(s, j, e).n)
  {
    hide CalmClient, Enabled, Apply, Transport.Perform, Produce, Transport.CalmMove;
    match e {
      case OfManager(step) =>
        var v := j.(w := Apply(s, j.w, step), asked := if step.Frame? then j.asked + [step.f] else j.asked);
        if |j.w.mem.pushed| < |v.w.mem.pushed| {
          ProducesOnly(v, |j.w.mem.pushed|);
          var move := Transport.Produce(AsMessage(v.w.mem.pushed[|j.w.mem.pushed|]));
          ProducingIsCalm(v.n, move);
          CalmMoves(v.n, move);
        }
      case OfClient(move) => CalmMoves(j.n, move);
    }
  }

  lemma ProducingIsCalm(n: Transport.Net, move: Transport.Move)
    requires move.Produce?
    ensures Transport.CalmMove(n, move)
  {
  }

  lemma {:induction false} CalmEventsKeep(s: Setup, j: Joint, events: seq<Event>)
    requires CalmClient(j.n) && Unfolds(s, j, events) && CalmEvents(s, j, events)
    ensures CalmClient(Outcome(s, j, events).n)
    decreases |events|
  {
    hide CalmClient, Possible, Happens;
    if events != [] {
      CalmEvent(s, j, events[0]);
      CalmEventsKeep(s, Happens(s, j, events[0]), events[1..]);
    }
  }

  /**
   * If fetch goroutines do not overlap, responses leave in the order in which the scheduler accepted
   * them: the next one to leave is always the oldest accepted one that has not left.
   */
  lemma ResponsesInOrder(s: Setup, start: Joint, events: seq<Event>, i: nat)
    requires JustStarted(s, start) && Unfolds(s, start, events) && CalmEvents(s, start, events)
    requires IsResponse(Outcome(s, start, events), i)
    ensures var j := Outcome(s, start, events);
            var place := Earlier(j.n.gone, i);
            place < |j.from| && AnswersItsFrame(j, i, j.from[place])
  {
    hide JointInv, Unfolds, Outcome, CalmEvents, Earlier, CalmClient, AnswersItsFrame;
    JustStartedInv(s, start);
    EventsKeep(s, start, events);
    IdleIsCalm(s, start);
    CalmEventsKeep(s, start, events);
    var j := Outcome(s, start, events);
    PlaceInLog(j.n.gone, i);
    GoneIsPrefix(j.n);
    LinkOf(s, j);
    OneResponse(s, j, i, j.from[Earlier(j.n.gone, i)]);
  }

  lemma IdleIsCalm(s: Setup, j: Joint)
    requires JustStarted(s, j)
    ensures CalmClient(j.n)
  {
    hide Started, Transport.Idle;
    var capacity: nat, emergencyCap: nat :| j.n == Transport.Idle(capacity, emergencyCap);
    Transport.IdleConserved(capacity, emergencyCap, 0);
  }

  lemma GoneIsPrefix(n: Transport.Net)
    requires CalmClient(n)
    ensures Of(0, Transport.Messages(n.gone)) <= Of(0, n.pushed)
  {
    hide Of, Transport.Messages, Transport.Calm;
  }

  lemma LinkOf(s: Setup, j: Joint)
    requires JointInv(s, j)
    ensures Inv(s, j.w) && ClientInv(j.n) && Linked(j.w.mem.pushed, Of(0, j.n.pushed), j.from)
  {
    hide Inv, ClientInv, Linked, Sessions, Of;
  }
}
