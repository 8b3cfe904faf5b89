/** The anti-starvation outbound scheduler: pkg/queues/scheduler.go. */
module Scheduler {
  import opened Common

  datatype Message = Message(session: string, priority: int, payload: Bytes)

  datatype PushError = QueueFull | InvalidPriority

  const LEVELS: nat := 4
  const PATIENCE: nat := 10

  /** The queues by priority, the run of Priority-0 messages so far, and the level last yielded to. */
  datatype Sched = Sched(queues: seq<seq<Message>>, consecutive: nat, lastYield: nat, capacity: int, emergencyCap: int)

  function Limit(s: Sched, p: nat): int {
    if p == 0 then s.emergencyCap else s.capacity
  }

  /** Every queue holds messages of its own priority, within its capacity. */
  ghost predicate Valid(s: Sched) {
    && |s.queues| == LEVELS
    && s.lastYield < LEVELS
    && (forall p :: 0 <= p < LEVELS ==> |s.queues[p]| <= Limit(s, p))
    && (forall p, i :: 0 <= p < LEVELS && 0 <= i < |s.queues[p]| ==> s.queues[p][i].priority == p)
  }

  function Empty(capacity: int, emergencyCap: int): Sched {
    Sched([[], [], [], []], 0, 0, capacity, emergencyCap)
  }

  function Push(s: Sched, msg: Message): (Sched, Option<PushError>)
    requires |s.queues| == LEVELS
  {
    if !(0 <= msg.priority < LEVELS) then (s, Some(InvalidPriority))
    else if |s.queues[msg.priority]| >= Limit(s, msg.priority) then (s, Some(QueueFull))
    else (s.(queues := s.queues[msg.priority := s.queues[msg.priority] + [msg]]), None)
  }

  /** Take the head of queue `p`, leaving `consecutive` as the new run length. */
  function Serve(s: Sched, p: nat, consecutive: nat): (Sched, Option<Message>)
    requires p < |s.queues| && s.queues[p] != []
  {
    (s.(queues := s.queues[p := s.queues[p][1..]], consecutive := consecutive), Some(s.queues[p][0]))
  }

  /** The next level of the round robin among 1, 2 and 3. */
  function NextLevel(p: nat): (q: nat)
    ensures 1 <= q <= 3
  {
    p % 3 + 1
  }

  /** The round robin, over the next `n` levels. */
  function Yield(s: Sched, n: nat): (Sched, Option<Message>)
    requires |s.queues| == LEVELS
    decreases n
  {
    if n == 0 then (s, None)
    else
      var t := s.(lastYield := NextLevel(s.lastYield));
      if t.queues[t.lastYield] != [] then Serve(t, t.lastYield, 0) else Yield(t, n - 1)
  }

  /** Strict priority from level `p` down. */
  function Select(s: Sched, p: nat): (Sched, Option<Message>)
    requires |s.queues| == LEVELS && p <= LEVELS
    decreases LEVELS - p
  {
    if p == LEVELS then (s, None)
    else if s.queues[p] != [] then Serve(s, p, if p == 0 then s.consecutive + 1 else 0)
    else Select(s, p + 1)
  }

  function TryDequeue(s: Sched): (Sched, Option<Message>)
    requires |s.queues| == LEVELS
  {
    if s.consecutive >= PATIENCE then
      var (t, m) := Yield(s, 3);
      if m.Some? then (t, m) else Select(t, 0)
    else Select(s, 0)
  }

  /** A push is accepted exactly if its priority exists and its queue has room, with a limit of its own for Priority 0. */
  lemma PushAcceptsExactly(s: Sched, msg: Message)
    requires Valid(s)
    ensures Push(s, msg).1 == None <==>
            || (msg.priority == 0 && |s.queues[0]| < s.emergencyCap)
            || (msg.priority == 1 && |s.queues[1]| < s.capacity)
            || (msg.priority == 2 && |s.queues[2]| < s.capacity)
            || (msg.priority == 3 && |s.queues[3]| < s.capacity)
    ensures Push(s, msg).1 == Some(InvalidPriority) <==> msg.priority < 0 || msg.priority > 3
  {
  }

  // ----- what one operation does -----

  /** `t` is `s` with the head of queue `p` taken. */
  ghost predicate Took(s: Sched, t: Sched, p: nat) {
    && p < LEVELS && |s.queues| == LEVELS && s.queues[p] != []
    && t.queues == s.queues[p := s.queues[p][1..]]
    && t.capacity == s.capacity && t.emergencyCap == s.emergencyCap
  }

  lemma {:induction false} YieldForm(s: Sched, n: nat)
    requires |s.queues| == LEVELS && s.lastYield < LEVELS
    ensures var (t, m) := Yield(s, n);
            && t.lastYield < LEVELS
            && (m.None? ==> t == s.(lastYield := t.lastYield))
            && (m.Some? ==>
                  && 1 <= t.lastYield <= 3 && t.consecutive == 0
                  && Took(s, t, t.lastYield) && m.value == s.queues[t.lastYield][0])
    decreases n
  {
    if n > 0 { YieldForm(s.(lastYield := NextLevel(s.lastYield)), n - 1); }
  }

  /** Turns of the round robin until level `p` is tried, after a yield to `last`. */
  function Distance(last: nat, p: nat): (d: nat)
    requires last < LEVELS && 1 <= p <= 3
    ensures 1 <= d <= 3
  {
    if (p - last) % 3 == 0 then 3 else (p - last) % 3
  }

  lemma DistanceShrinks(last: nat, p: nat)
    requires last < LEVELS && 1 <= p <= 3
    ensures NextLevel(last) != p ==> Distance(NextLevel(last), p) == Distance(last, p) - 1
    ensures NextLevel(last) == p <==> Distance(last, p) == 1
  {
  }

  /** The round robin finds a message if it may go as far as a non-empty level, and gets closer to it. */
  lemma {:induction false} YieldReaches(s: Sched, n: nat, p: nat)
    requires |s.queues| == LEVELS && s.lastYield < LEVELS && 1 <= p <= 3 && s.queues[p] != []
    requires Distance(s.lastYield, p) <= n
    ensures var (t, m) := Yield(s, n);
            m.Some? && 1 <= t.lastYield <= 3 &&
                (t.lastYield == p || Distance(t.lastYield, p) < Distance(s.lastYield, p))
    decreases n
  {
    hide Distance, NextLevel;
    DistanceShrinks(s.lastYield, p);
    var t := s.(lastYield := NextLevel(s.lastYield));
    if t.queues[t.lastYield] == [] {
      YieldReaches(t, n - 1, p);
    }
  }

  lemma {:induction false} SelectForm(s: Sched, p: nat)
    requires |s.queues| == LEVELS && p <= LEVELS
    ensures var (t, m) := Select(s, p);
            && t.lastYield == s.lastYield
            && (m.None? ==> t == s && forall q :: p <= q < LEVELS ==> s.queues[q] == [])
            && (m.Some? ==> exists q :: p <= q < LEVELS && SelectedAt(s, t, m.value, p, q))
    decreases LEVELS - p
  {
    if p < LEVELS {
      if s.queues[p] != [] {
        assert SelectedAt(s, Select(s, p).0, s.queues[p][0], p, p);
      } else {
        SelectForm(s, p + 1);
        var (t, m) := Select(s, p + 1);
        if m.Some? {
          var q :| p + 1 <= q < LEVELS && SelectedAt(s, t, m.value, p + 1, q);
          assert SelectedAt(s, t, m.value, p, q);
        }
      }
    }
  }

  /** The head of queue `q`, the first non-empty one from `p` on, was selected. */
  ghost predicate SelectedAt(s: Sched, t: Sched, msg: Message, p: nat, q: nat) {
    && q < LEVELS && |s.queues| == LEVELS && s.queues[q] != [] && msg == s.queues[q][0] && Took(s, t, q)
    && (forall r :: p <= r < q ==> s.queues[r] == [])
    && t.consecutive == (if q == 0 then s.consecutive + 1 else 0)
  }

  /** A dequeue takes the head of one queue, and finds nothing only if all queues are empty. */
  lemma DequeueForm(s: Sched)
    requires Valid(s)
    ensures var (t, m) := TryDequeue(s);
            && Valid(t) && t.capacity == s.capacity && t.emergencyCap == s.emergencyCap
            && (m.None? ==> t.queues == s.queues && forall q :: 0 <= q < LEVELS ==> s.queues[q] == [])
            && (m.Some? ==>
                 0 <= m.value.priority < LEVELS && Took(s, t, m.value.priority) &&
                 m.value == s.queues[m.value.priority][0])
  {
    hide Yield, Select, Valid;
    ValidShape(s);
    YieldForm(s, 3);
    var y := if s.consecutive >= PATIENCE then Yield(s, 3).0 else s;
    SelectForm(y, 0);
    var (t, m) := TryDequeue(s);
    if m.Some? {
      var p :| 0 <= p < LEVELS && Took(s, t, p) && m.value == s.queues[p][0];
      TookKeeps(s, t, p);
    } else {
      TurnKeeps(s, t);
    }
  }

  lemma TookKeeps(s: Sched, t: Sched, p: nat)
    requires Valid(s) && Took(s, t, p) && t.lastYield < LEVELS
    ensures Valid(t) && s.queues[p][0].priority == p
  {
  }

  lemma TurnKeeps(s: Sched, t: Sched)
    requires Valid(s) && t.lastYield < LEVELS && t.queues == s.queues && t.capacity == s.capacity &&
               t.emergencyCap == s.emergencyCap
    ensures Valid(t)
  {
  }

  lemma PushKeeps(s: Sched, msg: Message)
    requires Valid(s)
    ensures var (t, e) := Push(s, msg);
            && Valid(t) && t.capacity == s.capacity && t.emergencyCap == s.emergencyCap
            && (e.Some? ==> t == s)
            && (e.None? ==>
                 0 <= msg.priority < LEVELS &&
                 t.queues == s.queues[msg.priority := s.queues[msg.priority] + [msg]])
  {
  }

  lemma ValidShape(s: Sched)
    requires Valid(s)
    ensures |s.queues| == LEVELS && s.lastYield < LEVELS
  {
  }
}
