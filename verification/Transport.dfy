/**
 * The WebSocket writer across reconnects: pkg/websocket/client.go, startWriterLoop and the session
 * handling of ReconnectLoop. Each session has a writer and a fetch goroutine that hands it one
 * message at a time and waits for an acknowledgement; a step is one action of one of them.
 */
module Transport {
  import opened Common
  import opened CanonicalKeys
  import opened Scheduler
  import opened SchedulerTheorems

  /** The fetch goroutine. `retained` marks a message taken over from an earlier session. */
  datatype Fetcher = Starting | Fetching | Offering(msg: Message, retained: bool) | Awaiting | Exited

  datatype Writer = Waiting | Holding(msg: Message) | Acking | Stopped

  /**
   * Written to the socket of connection `generation`, discarded as stale by the writer of that connection,
   * or abandoned after a failed write or a cancelled hand-over.
   */
  datatype Fate = Written(generation: nat) | Discarded(generation: nat) | Abandoned

  datatype Gone = Gone(msg: Message, fate: Fate)

  /**
   * `generation` counts connections and `session` is the connection of the last session started;
   * `pushed` are the messages the scheduler accepted and `gone` those that left the client, in order.
   */
  datatype Net = Net(
    sched: Sched,
    generation: nat,
    session: nat,
    active: bool,
    done: bool,
    pending: Option<Message>,
    writer: Writer,
    fetchers: map<nat, Fetcher>,
    pushed: seq<Message>,
    gone: seq<Gone>)

  datatype Move =
    | Produce(msg: Message)
    | Dial
    | Open
    | Cancel
    | TakePending(g: nat)
    | Fetch(g: nat)
    | Quit(g: nat)
    | Withdraw(g: nat)
    | Offer
    | Discard
    | Write(ok: bool)
    | Ack
    | Stop
    | Close

  function Idle(capacity: int, emergencyCap: int): Net {
    Net(Empty(capacity, emergencyCap), 0, 0, false, true, None, Stopped, map[], [], [])
  }

  predicate At(n: Net, g: nat, f: Fetcher) {
    g in n.fetchers && n.fetchers[g] == f
  }

  predicate IsOffering(n: Net, g: nat) {
    g in n.fetchers && n.fetchers[g].Offering?
  }

  /** The context of session `g` is over. */
  predicate Cancelled(n: Net, g: nat) {
    !n.active || g != n.session || n.done
  }

  /** A Priority-0 message for another session than the current one. */
  predicate Stale(n: Net, msg: Message) {
    msg.priority == 0 && msg.session != SessionName(n.session)
  }

  predicate CanMove(n: Net, move: Move)
    requires |n.sched.queues| == LEVELS
  {
    match move
    case Produce(_) => true
    case Dial => !n.active
    case Open => !n.active && n.session < n.generation
    case Cancel => n.active
    case TakePending(g) => At(n, g, Starting)
    case Fetch(g) => At(n, g, Fetching) && !Cancelled(n, g) && TryDequeue(n.sched).1.Some?
    case Quit(g) => (At(n, g, Fetching) || At(n, g, Awaiting)) && Cancelled(n, g)
    case Withdraw(g) => IsOffering(n, g) && Cancelled(n, g)
    case Offer => n.active && n.writer.Waiting? && IsOffering(n, n.session)
    case Discard => n.active && n.writer.Holding? && Stale(n, n.writer.msg)
    case Write(_) => n.active && n.writer.Holding? && !Stale(n, n.writer.msg)
    case Ack => n.active && n.writer.Acking? && At(n, n.session, Awaiting)
    case Stop => n.active && (n.writer.Waiting? || (n.writer.Acking? && n.done))
    case Close => n.active && n.writer.Stopped?
  }

  /** Keep a message for the next session if the slot is free; Priority 0 is given up. */
  function Retain(n: Net, msg: Message): Net {
    if msg.priority != 0 && n.pending.None? then n.(pending := Some(msg))
    else n.(gone := n.gone + [Gone(msg, Abandoned)])
  }

  function SetFetcher(n: Net, g: nat, f: Fetcher): Net {
    n.(fetchers := n.fetchers[g := f])
  }

  function Perform(n: Net, move: Move): Net
    requires |n.sched.queues| == LEVELS && CanMove(n, move)
  {
    match move
    case Produce(msg) =>
      var (s, e) := Push(n.sched, msg);
      n.(sched := s, pushed := if e.None? then n.pushed + [msg] else n.pushed)
    case Dial => n.(generation := n.generation + 1)
    case Open => SetFetcher(n.(session := n.generation, active := true, done := false, writer := Waiting),
        n.generation, Starting)
    case Cancel => n.(done := true)
    case TakePending(g) =>
      if n.pending.Some? then SetFetcher(n.(pending := None), g, Offering(n.pending.value, true))
      else SetFetcher(n, g, Fetching)
    case Fetch(g) =>
      var (s, m) := TryDequeue(n.sched);
      SetFetcher(n.(sched := s), g, Offering(m.value, false))
    case Quit(g) => SetFetcher(n, g, Exited)
    case Withdraw(g) => SetFetcher(Retain(n, n.fetchers[g].msg), g, Exited)
    case Offer => SetFetcher(n.(writer := Holding(n.fetchers[n.session].msg)), n.session, Awaiting)
    case Discard => n.(writer := Acking, gone := n.gone + [Gone(n.writer.msg, Discarded(n.session))])
    case Write(ok) =>
      if ok then n.(writer := Acking, gone := n.gone + [Gone(n.writer.msg, Written(n.session))])
      else Retain(n, n.writer.msg).(writer := Stopped, done := true)
    case Ack => SetFetcher(n.(writer := Waiting), n.session, Fetching)
    case Stop => n.(writer := Stopped, done := true)
    case Close => n.(active := false, done := true)
  }

  ghost predicate Goes(n: Net, moves: seq<Move>)
    requires Valid(n.sched)
    decreases |moves|
  {
    moves == [] ||
    (CanMove(n, moves[0]) && (QueuesStayValid(n, moves[0]); Goes(Perform(n, moves[0]), moves[1..])))
  }

  ghost function End(n: Net, moves: seq<Move>): (v: Net)
    requires Valid(n.sched) && Goes(n, moves)
    ensures Valid(v.sched) && v.sched.capacity == n.sched.capacity && v.sched.emergencyCap == n.sched.emergencyCap
    decreases |moves|
  {
    if moves == [] then n
    else
      QueuesStayValid(n, moves[0]);
      End(Perform(n, moves[0]), moves[1..])
  }

  lemma QueuesStayValid(n: Net, move: Move)
    requires Valid(n.sched) && CanMove(n, move)
    ensures var s := Perform(n, move).sched;
            Valid(s) && s.capacity == n.sched.capacity && s.emergencyCap == n.sched.emergencyCap
  {
    hide Valid, TryDequeue, Push;
    if move.Produce? { PushKeeps(n.sched, move.msg); }
    if move.Fetch? { DequeueForm(n.sched); }
  }

  // ----- responses stay on their session -----

  ghost predicate OwnSocket(g: Gone) {
    && (g.fate.Written? && g.msg.priority == 0 ==> g.msg.session == SessionName(g.fate.generation))
    && (g.fate.Discarded? ==> g.msg.priority == 0 && g.msg.session != SessionName(g.fate.generation))
  }

  /**
   * Nothing retained is a response, every response written went to its own session and every one discarded was
   * for another, in order of connection.
   */
  ghost predicate ResponsesSafe(n: Net) {
    && n.session <= n.generation
    && (n.pending.Some? ==> n.pending.value.priority != 0)
    && (forall g :: g in n.fetchers && n.fetchers[g].Offering? && n.fetchers[g].retained ==>
         n.fetchers[g].msg.priority != 0)
    && (forall i :: 0 <= i < |n.gone| ==> OwnSocket(n.gone[i]))
    && (forall i :: 0 <= i < |n.gone| && n.gone[i].fate.Written? ==> n.gone[i].fate.generation <= n.session)
    && (forall i, j :: 0 <= i < j < |n.gone| && n.gone[i].fate.Written? && n.gone[j].fate.Written? ==>
          n.gone[i].fate.generation <= n.gone[j].fate.generation)
  }

  /** One more message leaves the client. */
  lemma LogKeepsResponses(n: Net, g: Gone)
    requires ResponsesSafe(n) && OwnSocket(g) && (g.fate.Written? ==> g.fate.generation == n.session)
    ensures ResponsesSafe(n.(gone := n.gone + [g]))
  {
    hide OwnSocket;
  }

  lemma RetainKeepsResponses(n: Net, msg: Message)
    requires ResponsesSafe(n)
    ensures ResponsesSafe(Retain(n, msg)) &&
              Retain(n, msg) == n.(pending := Retain(n, msg).pending, gone := Retain(n, msg).gone)
  {
    hide OwnSocket, ResponsesSafe;
    if msg.priority != 0 && n.pending.None? {
      PendingKeepsResponses(n, Some(msg));
    } else {
      AbandonedIsHarmless(msg);
      LogKeepsResponses(n, Gone(msg, Abandoned));
    }
  }

  lemma PendingKeepsResponses(n: Net, pending: Option<Message>)
    requires ResponsesSafe(n) && (pending.Some? ==> pending.value.priority != 0)
    ensures ResponsesSafe(n.(pending := pending))
  {
    hide OwnSocket;
  }

  lemma AbandonedIsHarmless(msg: Message)
    ensures OwnSocket(Gone(msg, Abandoned))
  {
  }

  /** Anything else about the client may change, as long as session numbers grow and retained messages stay retained. */
  lemma RestKeepsResponses(n: Net, v: Net)
    requires ResponsesSafe(n) && v.gone == n.gone && v.pending == n.pending && n.session <= v.session <= v.generation
    requires forall g :: g in v.fetchers && v.fetchers[g].Offering? && v.fetchers[g].retained ==>
               (g in n.fetchers && v.fetchers[g] == n.fetchers[g]) || n.pending == Some(v.fetchers[g].msg)
    ensures ResponsesSafe(v)
  {
    hide OwnSocket;
  }

  lemma MoveKeepsResponses(n: Net, move: Move)
    requires Valid(n.sched) && CanMove(n, move) && ResponsesSafe(n)
    ensures ResponsesSafe(Perform(n, move))
  {
    hide Valid, TryDequeue, Push, SessionName, ResponsesSafe, Retain;
    ValidShape(n.sched);
    SessionBound(n);
    var v := Perform(n, move);
    if move.Withdraw? {
      RetainKeepsResponses(n, n.fetchers[move.g].msg);
      RestKeepsResponses(Retain(n, n.fetchers[move.g].msg), v);
    } else if move == Write(false) {
      RetainKeepsResponses(n, n.writer.msg);
      RestKeepsResponses(Retain(n, n.writer.msg), v);
    } else if move.Discard? || move.Write? {
      LogKeepsResponses(n, v.gone[|n.gone|]);
      RestKeepsResponses(n.(gone := v.gone), v);
    } else if move.TakePending? && n.pending.Some? {
      RestKeepsResponses(n, v.(pending := n.pending));
      PendingKeepsResponses(v.(pending := n.pending), None);
    } else {
      RestKeepsResponses(n, v);
    }
  }

  lemma SessionBound(n: Net)
    requires ResponsesSafe(n)
    ensures n.session <= n.generation
  {
  }

  /**
   * However sessions overlap, a response is written only to the socket of the session it answers,
   * and no retained message is a response.
   */
  lemma {:induction false} ResponsesStayHome(n: Net, moves: seq<Move>)
    requires Valid(n.sched) && Goes(n, moves) && ResponsesSafe(n)
    ensures ResponsesSafe(End(n, moves))
    decreases |moves|
  {
    hide Valid, Perform, CanMove, ResponsesSafe;
    ValidShape(n.sched);
    if moves != [] {
      QueuesStayValid(n, moves[0]);
      MoveKeepsResponses(n, moves[0]);
      ResponsesStayHome(Perform(n, moves[0]), moves[1..]);
    }
  }

  /** The session name identifies the connection, so one response is never valid on two sockets. */
  lemma OneSocketPerResponse(n: Net, i: nat, g: nat)
    requires ResponsesSafe(n) && i < |n.gone| && n.gone[i].fate.Written? && n.gone[i].msg.priority == 0
    requires n.gone[i].msg.session == SessionName(g)
    ensures n.gone[i].fate.generation == g
  {
    assert OwnSocket(n.gone[i]);
    SessionNames(n.gone[i].fate.generation, g);
  }

  lemma MoveNumbers(n: Net, move: Move)
    requires |n.sched.queues| == LEVELS && CanMove(n, move)
    ensures var v := Perform(n, move);
            n.generation <= v.generation && n.session <= v.session && (move.Open? ==> n.session < v.session)
  {
    hide TryDequeue, Push, SessionName;
  }

  /** Connections and sessions are numbered upwards: no later session reuses the name of an earlier one. */
  lemma {:induction false} SessionsIncrease(n: Net, moves: seq<Move>, i: nat)
    requires Valid(n.sched) && Goes(n, moves)
    ensures n.generation <= End(n, moves).generation && n.session <= End(n, moves).session
    ensures i < |moves| && moves[i].Open? ==>
              n.session < End(n, moves).session && SessionName(n.session) != SessionName(End(n, moves).session)
    decreases |moves|
  {
    hide Valid, SessionName, Perform, CanMove;
    ValidShape(n.sched);
    if moves != [] {
      QueuesStayValid(n, moves[0]);
      MoveNumbers(n, moves[0]);
      SessionsIncrease(Perform(n, moves[0]), moves[1..], if i > 0 then i - 1 else 0);
      SessionNames(n.session, End(n, moves).session);
    }
  }

  // ----- nothing is duplicated or invented, even when fetchers overlap -----

  /** The fetch goroutines that hold a copy of message `m`. */
  ghost function Offers(fetchers: map<nat, Fetcher>, m: Message): set<nat> {
    set g | g in fetchers && fetchers[g].Offering? && fetchers[g].msg == m
  }

  ghost function One(b: bool): nat { if b then 1 else 0 }

  /** How often message `m` is out of the queues and not gone yet. */
  ghost function Copies(n: Net, m: Message): nat {
    One(n.pending == Some(m)) + |Offers(n.fetchers, m)| + One(n.writer == Holding(m))
  }

  /** Message `m` was accepted as often as it is gone, on its way or queued. */
  ghost predicate Counted(n: Net, m: Message)
    requires |n.sched.queues| == LEVELS && 0 <= m.priority < LEVELS
  {
    multiset(n.pushed)[m] == multiset(Messages(n.gone))[m] + Copies(n, m) + multiset(n.sched.queues[m.priority])[m]
  }

  /** A writer holds a message only during its session, and session numbers are not reused. */
  ghost predicate Orderly(n: Net) {
    && (!n.active ==> n.writer.Stopped?)
    && n.session <= n.generation
    && (forall g :: g in n.fetchers ==> g <= n.session)
  }

  lemma MoveKeepsOrder(n: Net, move: Move)
    requires Valid(n.sched) && CanMove(n, move) && Orderly(n)
    ensures Orderly(Perform(n, move))
  {
    hide Valid, TryDequeue, Push, SessionName;
    ValidShape(n.sched);
  }

  lemma OffersChange(fetchers: map<nat, Fetcher>, g: nat, f: Fetcher, m: Message)
    ensures |Offers(fetchers[g := f], m)| + One(g in Offers(fetchers, m)) ==
              |Offers(fetchers, m)| + One(f.Offering? && f.msg == m)
  {
    var was, after := Offers(fetchers, m), Offers(fetchers[g := f], m);
    if f.Offering? && f.msg == m {
      assert after == was + {g};
    } else {
      assert after == was - {g};
    }
  }

  lemma GoneCounts(gone: seq<Gone>, g: Gone, m: Message)
    ensures multiset(Messages(gone + [g]))[m] == multiset(Messages(gone))[m] + One(g.msg == m)
  {
    assert (gone + [g])[..|gone|] == gone;
    assert Messages(gone + [g]) == Messages(gone) + [g.msg];
  }

  lemma RetainCounts(n: Net, msg: Message, m: Message)
    ensures var v := Retain(n, msg);
            One(v.pending == Some(m)) + multiset(Messages(v.gone))[m] ==
            One(n.pending == Some(m)) + multiset(Messages(n.gone))[m] + One(msg == m)
  {
    hide Messages;
    GoneCounts(n.gone, Gone(msg, Abandoned), m);
  }

  lemma ProduceCounts(n: Net, msg: Message, m: Message)
    requires Valid(n.sched) && 0 <= m.priority < LEVELS && Counted(n, m)
    ensures Counted(Perform(n, Produce(msg)), m)
  {
    hide Valid, Messages;
    ValidShape(n.sched);
    PushKeeps(n.sched, msg);
  }

  lemma FetchCounts(n: Net, g: nat, m: Message)
    requires Valid(n.sched) && CanMove(n, Fetch(g)) && 0 <= m.priority < LEVELS && Counted(n, m)
    ensures Counted(Perform(n, Fetch(g)), m)
  {
    hide Valid, TryDequeue, Messages, Offers;
    ValidShape(n.sched);
    DequeueForm(n.sched);
    var msg := TryDequeue(n.sched).1.value;
    OffersChange(n.fetchers, g, Offering(msg, false), m);
    NotOffering(n.fetchers, g, m);
    var q := n.sched.queues[msg.priority];
    assert q == [msg] + q[1..];
  }

  lemma NotOffering(fetchers: map<nat, Fetcher>, g: nat, m: Message)
    ensures g in Offers(fetchers, m) <==> g in fetchers && fetchers[g].Offering? && fetchers[g].msg == m
  {
  }

  /** What giving fetch goroutine `g` the state `f` does to the copies of `m`. */
  lemma SetCounts(n: Net, g: nat, f: Fetcher, m: Message)
    ensures |Offers(SetFetcher(n, g, f).fetchers, m)| + One(g in n.fetchers && n.fetchers[g].Offering? &&
              n.fetchers[g].msg == m) ==
            |Offers(n.fetchers, m)| + One(f.Offering? && f.msg == m)
  {
    hide Offers;
    OffersChange(n.fetchers, g, f, m);
    NotOffering(n.fetchers, g, m);
  }

  lemma TakeCounts(n: Net, g: nat, m: Message)
    requires |n.sched.queues| == LEVELS && CanMove(n, TakePending(g)) && 0 <= m.priority < LEVELS && Counted(n, m)
    ensures Counted(Perform(n, TakePending(g)), m)
  {
    hide Messages, Offers;
    SetCounts(n, g, if n.pending.Some? then Offering(n.pending.value, true) else Fetching, m);
  }

  lemma WithdrawCounts(n: Net, g: nat, m: Message)
    requires |n.sched.queues| == LEVELS && CanMove(n, Withdraw(g)) && 0 <= m.priority < LEVELS && Counted(n, m)
    ensures Counted(Perform(n, Withdraw(g)), m)
  {
    hide Messages, Offers, Retain;
    RetainCounts(n, n.fetchers[g].msg, m);
    RetainRest(n, n.fetchers[g].msg);
    SetCounts(Retain(n, n.fetchers[g].msg), g, Exited, m);
  }

  lemma RetainRest(n: Net, msg: Message)
    ensures Retain(n, msg) == n.(pending := Retain(n, msg).pending, gone := Retain(n, msg).gone)
  {
  }

  lemma OfferCounts(n: Net, m: Message)
    requires |n.sched.queues| == LEVELS && CanMove(n, Offer) && 0 <= m.priority < LEVELS && Counted(n, m)
    ensures Counted(Perform(n, Offer), m)
  {
    hide Messages, Offers;
    SetCounts(n.(writer := Holding(n.fetchers[n.session].msg)), n.session, Awaiting, m);
  }

  lemma QuitCounts(n: Net, g: nat, f: Fetcher, writer: Writer, m: Message)
    requires |n.sched.queues| == LEVELS && 0 <= m.priority < LEVELS && Counted(n, m)
    requires g in n.fetchers && !n.fetchers[g].Offering? && !f.Offering? && (writer == n.writer || !n.writer.Holding?)
    requires !writer.Holding? || writer == n.writer
    ensures Counted(SetFetcher(n.(writer := writer), g, f), m)
  {
    hide Messages, Offers;
    SetCounts(n.(writer := writer), g, f, m);
  }

  lemma OpenCounts(n: Net, m: Message)
    requires |n.sched.queues| == LEVELS && CanMove(n, Open) && 0 <= m.priority < LEVELS && Counted(n, m) && Orderly(n)
    ensures Counted(Perform(n, Open), m)
  {
    hide Messages, Offers;
    SetCounts(n.(session := n.generation, active := true, done := false, writer := Waiting), n.generation, Starting, m);
  }

  lemma WriteCounts(n: Net, move: Move, m: Message)
    requires |n.sched.queues| == LEVELS && CanMove(n, move) && 0 <= m.priority < LEVELS && Counted(n, m)
    requires move.Discard? || move == Write(true)
    ensures Counted(Perform(n, move), m)
  {
    hide Messages, Offers, SessionName;
    GoneCounts(n.gone, Gone(n.writer.msg, if move.Discard? then Discarded(n.session) else Written(n.session)), m);
  }

  lemma FailedWriteCounts(n: Net, m: Message)
    requires |n.sched.queues| == LEVELS && CanMove(n, Write(false)) && 0 <= m.priority < LEVELS && Counted(n, m)
    ensures Counted(Perform(n, Write(false)), m)
  {
    hide Messages, Offers, SessionName, Retain;
    RetainCounts(n, n.writer.msg, m);
    RetainRest(n, n.writer.msg);
  }

  lemma QuietCounts(n: Net, move: Move, m: Message)
    requires |n.sched.queues| == LEVELS && CanMove(n, move) && 0 <= m.priority < LEVELS && Counted(n, m)
    requires move.Stop? || move.Close? || move.Cancel? || move.Dial?
    ensures Counted(Perform(n, move), m)
  {
    hide Messages, Offers;
  }

  lemma MoveCounts(n: Net, move: Move, m: Message)
    requires Valid(n.sched) && CanMove(n, move) && 0 <= m.priority < LEVELS && Counted(n, m) && Orderly(n)
    ensures Valid(Perform(n, move).sched) && Counted(Perform(n, move), m)
  {
    hide Valid, CanMove, Perform, Counted, Orderly;
    ValidShape(n.sched);
    QueuesStayValid(n, move);
    if move.Produce? { ProduceCounts(n, move.msg, m); }
    else if move.Fetch? { FetchCounts(n, move.g, m); }
    else if move.TakePending? { TakeCounts(n, move.g, m); }
    else if move.Withdraw? { WithdrawCounts(n, move.g, m); }
    else if move.Offer? { OfferCounts(n, m); }
    else if move.Open? { OpenCounts(n, m); }
    else if move.Quit? || move.Ack? { EndWaitCounts(n, move, m); }
    else if move == Write(false) { FailedWriteCounts(n, m); }
    else if move.Discard? || move.Write? { WriteCounts(n, move, m); }
    else { QuietCounts(n, move, m); }
  }

  lemma EndWaitCounts(n: Net, move: Move, m: Message)
    requires |n.sched.queues| == LEVELS && CanMove(n, move) && 0 <= m.priority < LEVELS && Counted(n, m)
    requires move.Quit? || move.Ack?
    ensures Counted(Perform(n, move), m)
  {
    hide Counted;
    if move.Quit? {
      QuitCounts(n, move.g, Exited, n.writer, m);
    } else {
      QuitCounts(n, n.session, Fetching, Waiting, m);
    }
  }

  /**
   * Over every run, also with overlapping fetch goroutines: each message has left, is on its way or is
   * queued exactly as often as it was accepted, so none is written more often than it was pushed.
   */
  lemma {:induction false} NothingInvented(n: Net, moves: seq<Move>, m: Message)
    requires Valid(n.sched) && Goes(n, moves) && Orderly(n) && 0 <= m.priority < LEVELS && Counted(n, m)
    ensures var v := End(n, moves);
            Orderly(v) && Counted(v, m) && multiset(Messages(v.gone))[m] <= multiset(v.pushed)[m]
    decreases |moves|
  {
    hide Valid, CanMove, Perform, Orderly;
    ValidShape(n.sched);
    if moves != [] {
      QueuesStayValid(n, moves[0]);
      MoveCounts(n, moves[0], m);
      MoveKeepsOrder(n, moves[0]);
      NothingInvented(Perform(n, moves[0]), moves[1..], m);
    }
  }

  // ----- conservation when fetchers do not overlap -----

  /** Every session starts after all earlier fetch goroutines exited. */
  ghost predicate CalmMove(n: Net, move: Move) {
    move.Open? ==> forall g :: g in n.fetchers ==> n.fetchers[g].Exited?
  }

  ghost predicate CalmRun(n: Net, moves: seq<Move>)
    requires Valid(n.sched) && Goes(n, moves)
    decreases |moves|
  {
    moves == [] || (CalmMove(n, moves[0]) && (QueuesStayValid(n, moves[0]); CalmRun(Perform(n, moves[0]), moves[1..])))
  }

  function Current(n: Net): Fetcher {
    if n.session in n.fetchers then n.fetchers[n.session] else Exited
  }

  /** The goroutines of the current session agree on who has the message. */
  ghost predicate Agree(f: Fetcher, w: Writer, pending: Option<Message>) {
    && (f.Starting? || f.Fetching? || f.Offering? ==> w.Waiting? || w.Stopped?)
    && (f.Fetching? || f.Offering? || w.Holding? || w.Acking? ==> pending.None?)
    && (f.Awaiting? ==> !w.Waiting?)
  }

  /** The one message that is out of the queues and not gone yet, if any. */
  function Outside(f: Fetcher, w: Writer, pending: Option<Message>): seq<Message> {
    if pending.Some? then [pending.value]
    else if f.Offering? then [f.msg]
    else if w.Holding? then [w.msg]
    else []
  }

  function Messages(gone: seq<Gone>): seq<Message> {
    if gone == [] then [] else Messages(gone[..|gone| - 1]) + [gone[|gone| - 1].msg]
  }

  /** What was accepted on level `p` has left, is in transit or is queued, in this order. */
  ghost predicate Conserved(n: Net, p: nat)
    requires p < |n.sched.queues|
  {
    Of(p, n.pushed) == Of(p, Messages(n.gone)) + Of(p, Outside(Current(n), n.writer, n.pending)) + n.sched.queues[p]
  }

  /** The state of a client whose fetch goroutines never overlapped. */
  ghost predicate Calm(n: Net) {
    && (forall g :: g in n.fetchers && g != n.session ==> n.fetchers[g].Exited?)
    && n.session <= n.generation
    && Agree(Current(n), n.writer, n.pending)
    && (!n.active ==> n.writer.Stopped?)
    && (n.pending.Some? ==> n.pending.value.priority != 0)
    && (Current(n).Offering? && Current(n).retained ==> Current(n).msg.priority != 0)
    && (forall i :: 0 <= i < |n.gone| && n.gone[i].msg.priority != 0 ==> n.gone[i].fate.Written?)
  }

  lemma FetcherKeepsCalm(n: Net, move: Move)
    requires |n.sched.queues| == LEVELS && CanMove(n, move) && Calm(n)
    requires move.TakePending? || move.Fetch? || move.Quit? || move.Withdraw?
    ensures Calm(Perform(n, move))
  {
    hide TryDequeue, SessionName;
  }

  lemma WriterKeepsCalm(n: Net, move: Move)
    requires |n.sched.queues| == LEVELS && CanMove(n, move) && Calm(n)
    requires move.Offer? || move.Discard? || move.Write? || move.Ack? || move.Stop?
    ensures Calm(Perform(n, move))
  {
    hide SessionName;
  }

  lemma SessionKeepsCalm(n: Net, move: Move)
    requires |n.sched.queues| == LEVELS && CanMove(n, move) && Calm(n) && CalmMove(n, move)
    requires move.Produce? || move.Dial? || move.Open? || move.Cancel? || move.Close?
    ensures Calm(Perform(n, move))
  {
    hide Push;
  }

  lemma MoveKeepsCalm(n: Net, move: Move)
    requires Valid(n.sched) && CanMove(n, move) && Calm(n) && CalmMove(n, move)
    ensures Calm(Perform(n, move))
  {
    hide Valid, CanMove, Perform, Calm, CalmMove;
    ValidShape(n.sched);
    if move.TakePending? || move.Fetch? || move.Quit? || move.Withdraw? { FetcherKeepsCalm(n, move); }
    else if move.Offer? || move.Discard? || move.Write? || move.Ack? || move.Stop? { WriterKeepsCalm(n, move); }
    else { SessionKeepsCalm(n, move); }
  }

  ghost function Transit(n: Net): seq<Message> {
    Outside(Current(n), n.writer, n.pending)
  }

  /** The bookkeeping of a move that neither produces, fetches nor finishes a message. */
  ghost predicate Shuffles(n: Net, v: Net) {
    v.sched == n.sched && v.pushed == n.pushed && v.gone == n.gone && Transit(v) == Transit(n)
  }

  /** The message in transit is gone. */
  ghost predicate Finishes(n: Net, v: Net) {
    && v.sched == n.sched && v.pushed == n.pushed && |Transit(n)| == 1 && Transit(v) == []
    && |v.gone| == |n.gone| + 1 && v.gone[..|n.gone|] == n.gone && v.gone[|n.gone|].msg == Transit(n)[0]
  }

  lemma MoveForm(n: Net, move: Move)
    requires Valid(n.sched) && CanMove(n, move) && Calm(n) && CalmMove(n, move) && !move.Produce? && !move.Fetch?
    ensures Shuffles(n, Perform(n, move)) || Finishes(n, Perform(n, move))
  {
    hide Valid, TryDequeue, Push, SessionName;
    ValidShape(n.sched);
  }

  lemma FetchForm(n: Net, g: nat)
    requires Valid(n.sched) && CanMove(n, Fetch(g)) && Calm(n)
    ensures var v := Perform(n, Fetch(g));
            v.pushed == n.pushed && v.gone == n.gone && Transit(n) == [] && Transit(v) == [TryDequeue(n.sched).1.value]
  {
    hide Valid, TryDequeue, Push, SessionName;
    ValidShape(n.sched);
  }

  lemma FinishConserves(n: Net, v: Net, p: nat)
    requires |n.sched.queues| == LEVELS && p < LEVELS && Conserved(n, p) && Finishes(n, v)
    ensures Conserved(v, p)
  {
    hide Of;
    assert Messages(v.gone) == Messages(n.gone) + [v.gone[|n.gone|].msg];
    assert Transit(n) == [v.gone[|n.gone|].msg];
    OfSplits(p, Messages(n.gone), Transit(n));
    OfNone(p);
  }

  lemma FetchConserves(n: Net, g: nat, p: nat)
    requires Valid(n.sched) && CanMove(n, Fetch(g)) && Calm(n) && p < LEVELS && Conserved(n, p)
    ensures Conserved(Perform(n, Fetch(g)), p)
  {
    hide Of, TryDequeue, Valid, Calm;
    ValidShape(n.sched);
    FetchForm(n, g);
    DequeueForm(n.sched);
    var m := TryDequeue(n.sched).1.value;
    OfOne(p, m);
    OfNone(p);
    var v := Perform(n, Fetch(g));
    assert p == m.priority ==> n.sched.queues[p] == [m] + v.sched.queues[p];
  }

  lemma ProduceConserves(n: Net, msg: Message, p: nat)
    requires Valid(n.sched) && p < LEVELS && Conserved(n, p)
    ensures Conserved(Perform(n, Produce(msg)), p)
  {
    hide Of, Valid;
    ValidShape(n.sched);
    PushKeeps(n.sched, msg);
    OfSplits(p, n.pushed, [msg]);
    OfOne(p, msg);
  }

  lemma MoveConserves(n: Net, move: Move, p: nat)
    requires Valid(n.sched) && CanMove(n, move) && Calm(n) && CalmMove(n, move) && p < LEVELS && Conserved(n, p)
    ensures Valid(Perform(n, move).sched) && Conserved(Perform(n, move), p)
  {
    hide Valid, Calm, CanMove, Perform, Of;
    ValidShape(n.sched);
    QueuesStayValid(n, move);
    var v := Perform(n, move);
    ValidShape(v.sched);
    if move.Produce? { ProduceConserves(n, move.msg, p); }
    else if move.Fetch? { FetchConserves(n, move.g, p); }
    else {
      MoveForm(n, move);
      if Finishes(n, v) { FinishConserves(n, v, p); }
    }
  }

  /**
   * Conservation across reconnects: if no two fetch goroutines overlap, every accepted message has at
   * each moment either left, or is the one in transit or retained, or is queued; per priority in push
   * order; and below Priority 0 leaving means having been written.
   */
  lemma {:induction false} NothingLost(n: Net, moves: seq<Move>, p: nat)
    requires Valid(n.sched) && Goes(n, moves) && CalmRun(n, moves) && Calm(n) && p < LEVELS && Conserved(n, p)
    ensures var v := End(n, moves); Valid(v.sched) && Calm(v) && Conserved(v, p)
    decreases |moves|
  {
    hide Valid, Calm, CanMove, Perform, Conserved;
    ValidShape(n.sched);
    if moves != [] {
      QueuesStayValid(n, moves[0]);
      MoveConserves(n, moves[0], p);
      MoveKeepsCalm(n, moves[0]);
      NothingLost(Perform(n, moves[0]), moves[1..], p);
    }
  }

  /** From a fresh client: what was written on a level below 0 is a prefix of what was pushed on it. */
  lemma WrittenInOrder(capacity: nat, emergencyCap: nat, moves: seq<Move>, p: nat)
    requires 1 <= p < LEVELS && Goes(Idle(capacity, emergencyCap), moves) &&
               CalmRun(Idle(capacity, emergencyCap), moves)
    ensures var v := End(Idle(capacity, emergencyCap), moves);
            && Of(p, Messages(v.gone)) <= Of(p, v.pushed)
            && |Of(p, v.pushed)| - |Of(p, Messages(v.gone))| <= 1 + |v.sched.queues[p]|
            && (forall i :: 0 <= i < |v.gone| && v.gone[i].msg.priority == p ==> v.gone[i].fate.Written?)
            && (forall q :: 0 <= q < LEVELS ==> |v.sched.queues[q]| <= if q == 0 then emergencyCap else capacity)
  {
    hide Goes, End, CalmRun, Of, Messages;
    var n := Idle(capacity, emergencyCap);
    IdleConserved(capacity, emergencyCap, p);
    NothingLost(n, moves, p);
    var v := End(n, moves);
    OfNone(p);
    if Transit(v) != [] {
      assert Transit(v) == [Transit(v)[0]];
      OfOne(p, Transit(v)[0]);
    }
  }

  lemma IdleConserved(capacity: nat, emergencyCap: nat, p: nat)
    requires p < LEVELS
    ensures var n := Idle(capacity, emergencyCap); Valid(n.sched) && Calm(n) && Conserved(n, p)
  {
  }

  /** A message below Priority 0 is given up exactly when it would be retained and the slot is taken. */
  lemma LosesExactlyWhen(n: Net, move: Move)
    requires |n.sched.queues| == LEVELS && CanMove(n, move)
    ensures (exists i :: |n.gone| <= i < |Perform(n, move).gone| && !Perform(n, move).gone[i].fate.Written? &&
              Perform(n, move).gone[i].msg.priority != 0)
            <==>
            n.pending.Some? &&
            ((move.Withdraw? && n.fetchers[move.g].msg.priority != 0) ||
                (move == Write(false) && n.writer.msg.priority != 0))
  {
    hide TryDequeue, Push, SessionName;
    var v := Perform(n, move);
    if move.Withdraw? || move == Write(false) {
      var msg := if move.Withdraw? then n.fetchers[move.g].msg else n.writer.msg;
      assert n.pending.Some? && msg.priority != 0 ==> v.gone[|n.gone|] == Gone(msg, Abandoned);
    }
  }

  // ----- when a response is given up, and when it is written -----

  ghost predicate GivesUp(n: Net, move: Move)
    requires |n.sched.queues| == LEVELS && CanMove(n, move)
  {
    var v := Perform(n, move);
    exists i :: |n.gone| <= i < |v.gone| && !v.gone[i].fate.Written? && v.gone[i].msg.priority == 0
  }

  /**
   * A response is given up exactly by a writer of another session that holds it, by a write of it that fails,
   * or by a fetch goroutine that offers it when its session is over.
   */
  lemma GivenUpExactlyWhen(n: Net, move: Move)
    requires |n.sched.queues| == LEVELS && CanMove(n, move)
    ensures GivesUp(n, move) <==>
            || (move.Discard? && n.writer.msg.priority == 0 && n.writer.msg.session != SessionName(n.session))
            || (move == Write(false) && n.writer.msg.priority == 0)
            || (move.Withdraw? && n.fetchers[move.g].msg.priority == 0)
    ensures move.Withdraw? ==> !n.active || move.g != n.session || n.done
  {
    hide TryDequeue, Push, SessionName;
    var v := Perform(n, move);
    if move.Withdraw? || move == Write(false) || move.Discard? {
      var msg := if move.Withdraw? then n.fetchers[move.g].msg else n.writer.msg;
      assert msg.priority == 0 ==>
               |v.gone| == |n.gone| + 1 && v.gone[|n.gone|].msg == msg && !v.gone[|n.gone|].fate.Written?;
    }
  }

  /** A message the writer holds for its own session can always be written, and never discarded. */
  lemma HeldCanBeWritten(n: Net, ok: bool)
    requires |n.sched.queues| == LEVELS && n.active && n.writer.Holding?
    requires n.writer.msg.priority != 0 || n.writer.msg.session == SessionName(n.session)
    ensures CanMove(n, Write(ok)) && !CanMove(n, Discard)
    ensures Perform(n, Write(true)).gone == n.gone + [Gone(n.writer.msg, Written(n.session))]
  {
  }

  /** No move that ends the session or fails a write. */
  ghost predicate Healthy(moves: seq<Move>) {
    forall i :: 0 <= i < |moves| ==>
      moves[i] != Write(false) && !moves[i].Cancel? && !moves[i].Stop? && !moves[i].Close?
  }

  /** Responses for the session that left since `from` were written. */
  ghost predicate AllWritten(n: Net, from: nat, session: nat) {
    from <= |n.gone| &&
    forall i :: from <= i < |n.gone| && n.gone[i].msg.priority == 0 && n.gone[i].msg.session == SessionName(session) ==>
      n.gone[i].fate == Written(session)
  }

  ghost predicate InSession(n: Net, session: nat) {
    n.active && !n.done && n.session == session && Calm(n)
  }

  lemma HealthyMove(n: Net, move: Move, from: nat)
    requires Valid(n.sched) && CanMove(n, move) && InSession(n, n.session) && AllWritten(n, from, n.session)
    requires Healthy([move])
    ensures InSession(Perform(n, move), n.session) && AllWritten(Perform(n, move), from, n.session)
  {
    hide Valid, TryDequeue, Push, SessionName, Calm;
    ValidShape(n.sched);
    assert [move][0] == move;
    NotOpening(n, move);
    MoveKeepsCalm(n, move);
    OnlyCurrentFetches(n);
  }

  lemma NotOpening(n: Net, move: Move)
    requires |n.sched.queues| == LEVELS && CanMove(n, move) && n.active
    ensures CalmMove(n, move)
  {
  }

  lemma OnlyCurrentFetches(n: Net)
    requires Calm(n)
    ensures forall g :: g in n.fetchers && g != n.session ==> n.fetchers[g].Exited?
  {
  }

  /**
   * In a session that is not cancelled and whose writes succeed, every response for it that leaves the client
   * is written to its socket.
   */
  lemma {:induction false} HealthySessionWrites(n: Net, moves: seq<Move>, from: nat)
    requires Valid(n.sched) && Goes(n, moves) && InSession(n, n.session) && AllWritten(n, from, n.session) &&
               Healthy(moves)
    ensures InSession(End(n, moves), n.session) && AllWritten(End(n, moves), from, n.session)
    decreases |moves|
  {
    hide Valid, CanMove, Perform, InSession, AllWritten;
    ValidShape(n.sched);
    if moves != [] {
      QueuesStayValid(n, moves[0]);
      assert Healthy([moves[0]]);
      HealthyMove(n, moves[0], from);
      SameSession(n, Perform(n, moves[0]));
      HealthySessionWrites(Perform(n, moves[0]), moves[1..], from);
    }
  }

  lemma SameSession(n: Net, v: Net)
    requires InSession(v, n.session)
    ensures v.session == n.session
  {
  }

  /** The writer waits and its fetch goroutine is about to ask the scheduler. */
  ghost predicate Ready(n: Net) {
    && |n.sched.queues| == LEVELS && n.active && !n.done && n.writer.Waiting?
    && n.session in n.fetchers && n.fetchers[n.session].Fetching?
  }

  /**
   * The next message goes out in four moves: it is fetched, offered, written unless it is a response for
   * another session, and acknowledged; then writer and fetch goroutine are ready again.
   */
  lemma NextGoesOut(n: Net) returns (moves: seq<Move>)
    requires Valid(n.sched) && Ready(n) && TryDequeue(n.sched).1.Some?
    ensures |moves| == 4 && Goes(n, moves) && Ready(End(n, moves))
    ensures var msg := TryDequeue(n.sched).1.value;
            End(n, moves) == n.(
              sched := TryDequeue(n.sched).0,
              gone := n.gone + [Gone(msg, if msg.priority == 0 && msg.session != SessionName(n.session)
                                          then Discarded(n.session) else Written(n.session))])
  {
    hide Valid, TryDequeue, SessionName, Goes, End, Offers;
    var g := n.session;
    DequeueForm(n.sched);
    ValidShape(n.sched);
    NoMoves(n);
    var msg := TryDequeue(n.sched).1.value;
    var a := Perform(n, Fetch(g));
    ValidShape(a.sched);
    GoesOn(n, [], Fetch(g));
    GoesOn(n, [] + [Fetch(g)], Offer);
    var b := Perform(a, Offer);
    var out := if Stale(b, msg) then Discard else Write(true);
    GoesOn(n, [] + [Fetch(g)] + [Offer], out);
    GoesOn(n, [] + [Fetch(g)] + [Offer] + [out], Ack);
    moves := [] + [Fetch(g)] + [Offer] + [out] + [Ack];
    assert n.fetchers[g := Offering(msg, false)][g := Awaiting][g := Fetching] == n.fetchers;
  }

  /**
   * A message retained from an earlier session goes out first: it is taken over, offered, written and
   * acknowledged before the new session asks the scheduler for anything.
   */
  lemma RetainedGoesFirst(n: Net) returns (moves: seq<Move>)
    requires Valid(n.sched) && n.active && !n.done && n.writer.Waiting? && n.pending.Some? &&
               n.pending.value.priority != 0
    requires At(n, n.session, Starting)
    ensures |moves| == 4 && Goes(n, moves) && Ready(End(n, moves))
    ensures End(n, moves) == n.(pending := None, fetchers := n.fetchers[n.session := Fetching],
                                gone := n.gone + [Gone(n.pending.value, Written(n.session))])
  {
    hide Valid, TryDequeue, SessionName, Goes, End;
    var g := n.session;
    var msg := n.pending.value;
    ValidShape(n.sched);
    NoMoves(n);
    GoesOn(n, [], TakePending(g));
    GoesOn(n, [] + [TakePending(g)], Offer);
    GoesOn(n, [] + [TakePending(g)] + [Offer], Write(true));
    GoesOn(n, [] + [TakePending(g)] + [Offer] + [Write(true)], Ack);
    moves := [] + [TakePending(g)] + [Offer] + [Write(true)] + [Ack];
    assert n.fetchers[g := Offering(msg, true)][g := Awaiting][g := Fetching] == n.fetchers[g := Fetching];
  }

  /** After a cancellation every fetch goroutine that waits can leave, and a lower message it offers is retained. */
  lemma CancelFreesFetchers(n: Net, g: nat)
    requires |n.sched.queues| == LEVELS && CanMove(n, Cancel) && g in n.fetchers
    ensures var v := Perform(n, Cancel);
            && (n.fetchers[g].Fetching? || n.fetchers[g].Awaiting? ==> CanMove(v, Quit(g)))
            && (n.fetchers[g].Offering? ==> CanMove(v, Withdraw(g)))
            && (n.fetchers[g].Offering? && n.fetchers[g].msg.priority != 0 && n.pending.None? ==>
                 Perform(v, Withdraw(g)).pending == Some(n.fetchers[g].msg))
  {
  }

  lemma NoMoves(n: Net)
    requires Valid(n.sched)
    ensures Goes(n, []) && End(n, []) == n
  {
  }

  // ----- overlapping fetch goroutines can lose a message -----

  lemma {:induction false} GoesOn(n: Net, moves: seq<Move>, move: Move)
    requires Valid(n.sched) && Goes(n, moves) && CanMove(End(n, moves), move)
    ensures Goes(n, moves + [move]) && End(n, moves + [move]) == Perform(End(n, moves), move)
    decreases |moves|
  {
    hide Valid, CanMove, Perform;
    ValidShape(n.sched);
    if moves == [] {
      QueuesStayValid(n, move);
      assert moves + [move] == [move] && [move][1..] == [];
    } else {
      QueuesStayValid(n, moves[0]);
      assert (moves + [move])[0] == moves[0] && (moves + [move])[1..] == moves[1..] + [move];
      GoesOn(Perform(n, moves[0]), moves[1..], move);
    }
  }

  lemma TakesHigh(s: Sched)
    requires |s.queues| == LEVELS && s.queues[0] == [] && s.queues[1] != [] && s.consecutive == 0
    ensures TryDequeue(s) == Serve(s, 1, 0)
  {
    assert Select(s, 0) == Select(s, 1) == Serve(s, 1, 0);
  }

  /** A run to a given state. */
  ghost predicate Leads(n: Net, moves: seq<Move>, v: Net) {
    Valid(n.sched) && Goes(n, moves) && End(n, moves) == v
  }

  lemma Next(n: Net, moves: seq<Move>, v: Net, move: Move)
    requires Leads(n, moves, v) && |v.sched.queues| == LEVELS && CanMove(v, move)
    ensures Leads(n, moves + [move], Perform(v, move))
  {
    hide Valid, Goes, End, CanMove, Perform;
    GoesOn(n, moves, move);
  }

  /**
   * The retained slot holds one message: a fetch goroutine that outlives its session finds it taken
   * and its Priority-1 message is lost, so the calm condition of NothingLost is needed.
   */
  lemma OverlapLoses(a: Message, b: Message)
    requires a.priority == 1 && b.priority == 1
    ensures exists moves, v :: Leads(Idle(2, 1), moves, v) && v.gone == [Gone(a, Abandoned)] && v.pushed == [a, b]
  {
    var moves, v := TwoSessions(a, b);
    var n := Idle(2, 1);
    Next(n, moves, v, Withdraw(2));
    var moves1 := moves + [Withdraw(2)];
    var v1 := Perform(v, Withdraw(2));
    Next(n, moves1, v1, Withdraw(1));
    assert Leads(n, moves1 + [Withdraw(1)], Perform(v1, Withdraw(1)));
  }

  /** Session 1 ended with `a` still offered by its fetch goroutine; session 2 ended with `b` offered. */
  lemma TwoSessions(a: Message, b: Message) returns (moves: seq<Move>, v: Net)
    requires a.priority == 1 && b.priority == 1
    ensures Leads(Idle(2, 1), moves, v) && !v.active && v.pending.None? && v.gone == [] && v.pushed == [a, b]
    ensures v.session == 2 && v.fetchers == map[1 := Offering(a, false), 2 := Offering(b, false)] &&
              |v.sched.queues| == LEVELS
  {
    hide Leads;
    moves, v := FilledQueue(a, b);
    moves, v := LostSession(moves, v, a, [b]);
    moves, v := LostSession(moves, v, b, []);
  }

  ghost predicate HighOnly(s: Sched, q: seq<Message>) {
    |s.queues| == LEVELS && s.queues[0] == [] && s.queues[1] == q && s.consecutive == 0
  }

  lemma FilledQueue(a: Message, b: Message) returns (moves: seq<Move>, v: Net)
    requires a.priority == 1 && b.priority == 1
    ensures Leads(Idle(2, 1), moves, v)
    ensures !v.active && v.pending.None? && v.gone == [] && v.pushed == [a, b] && v.generation == v.session == 0 &&
              v.fetchers == map[]
    ensures HighOnly(v.sched, [a, b])
  {
    hide Leads;
    var n := Idle(2, 1);
    LeadsNowhere(n);
    moves, v := [], n;
    Next(n, moves, v, Produce(a));
    moves, v := moves + [Produce(a)], Perform(v, Produce(a));
    Next(n, moves, v, Produce(b));
    moves, v := moves + [Produce(b)], Perform(v, Produce(b));
  }

  lemma LeadsNowhere(n: Net)
    requires Valid(n.sched)
    ensures Leads(n, [], n)
  {
  }

  /** A session that fetches the head of the queue and ends before offering it. */
  lemma LostSession(before: seq<Move>, u: Net, head: Message, rest: seq<Message>) returns (moves: seq<Move>, v: Net)
    requires Leads(Idle(2, 1), before, u) && !u.active && u.pending.None? && u.generation == u.session
    requires HighOnly(u.sched, [head] + rest) && u.generation + 1 !in u.fetchers
    ensures Leads(Idle(2, 1), moves, v)
    ensures !v.active && v.pending.None? && v.gone == u.gone && v.pushed == u.pushed &&
              v.generation == v.session == u.generation + 1
    ensures HighOnly(v.sched, rest) && v.fetchers == u.fetchers[v.session := Offering(head, false)]
  {
    hide Leads, TryDequeue;
    TakesHigh(u.sched);
    var g := u.generation + 1;
    var n := Idle(2, 1);
    Next(n, before, u, Dial);
    moves, v := before + [Dial], Perform(u, Dial);
    Next(n, moves, v, Open);
    moves, v := moves + [Open], Perform(v, Open);
    Next(n, moves, v, TakePending(g));
    moves, v := moves + [TakePending(g)], Perform(v, TakePending(g));
    Next(n, moves, v, Fetch(g));
    moves, v := moves + [Fetch(g)], Perform(v, Fetch(g));
    Next(n, moves, v, Stop);
    moves, v := moves + [Stop], Perform(v, Stop);
    Next(n, moves, v, Close);
    moves, v := moves + [Close], Perform(v, Close);
  }
}
