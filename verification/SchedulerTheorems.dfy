/** Order, conservation and bounded waiting of the outbound scheduler, over every run of arrivals and dequeues. */
module SchedulerTheorems {
  import opened Common
  import opened Scheduler

  datatype Act = Arrive(msg: Message) | Take

  function Do(s: Sched, a: Act): (Sched, Option<Message>)
    requires |s.queues| == LEVELS
  {
    match a
    case Arrive(msg) => (Push(s, msg).0, None)
    case Take => TryDequeue(s)
  }

  /** The messages an act adds to the queues: at most one. */
  function Accepted1(s: Sched, a: Act): seq<Message>
    requires |s.queues| == LEVELS
  {
    if a.Arrive? && Push(s, a.msg).1.None? then [a.msg] else []
  }

  function Delivered1(s: Sched, a: Act): seq<Message>
    requires |s.queues| == LEVELS
  {
    var m := Do(s, a).1;
    if m.Some? then [m.value] else []
  }

  lemma DoKeeps(s: Sched, a: Act)
    requires Valid(s)
    ensures Valid(Do(s, a).0)
  {
    match a
    case Arrive(msg) => PushKeeps(s, msg);
    case Take => DequeueForm(s);
  }

  ghost function After(s: Sched, acts: seq<Act>): (t: Sched)
    requires Valid(s)
    ensures Valid(t)
    decreases |acts|
  {
    if acts == [] then s
    else
      DoKeeps(s, acts[0]);
      After(Do(s, acts[0]).0, acts[1..])
  }

  /** What the dequeues of a run returned, in order. */
  ghost function Delivered(s: Sched, acts: seq<Act>): seq<Message>
    requires Valid(s)
    decreases |acts|
  {
    if acts == [] then []
    else
      DoKeeps(s, acts[0]);
      Delivered1(s, acts[0]) + Delivered(Do(s, acts[0]).0, acts[1..])
  }

  /** What the pushes of a run put into the queues, in order. */
  ghost function Accepted(s: Sched, acts: seq<Act>): seq<Message>
    requires Valid(s)
    decreases |acts|
  {
    if acts == [] then []
    else
      DoKeeps(s, acts[0]);
      Accepted1(s, acts[0]) + Accepted(Do(s, acts[0]).0, acts[1..])
  }

  function Takes(acts: seq<Act>): nat {
    if acts == [] then 0 else (if acts[0].Take? then 1 else 0) + Takes(acts[1..])
  }

  /** The messages of priority `p`, in order. */
  function Of(p: nat, msgs: seq<Message>): seq<Message> {
    if msgs == [] then []
    else (if msgs[0].priority == p then [msgs[0]] else []) + Of(p, msgs[1..])
  }

  lemma {:induction false} OfSplits(p: nat, a: seq<Message>, b: seq<Message>)
    ensures Of(p, a + b) == Of(p, a) + Of(p, b)
  {
    hide Of;
    OfNone(p);
    if a == [] {
      assert a + b == b;
    } else {
      OfSplits(p, a[1..], b);
      OfHead(p, a);
      OfHead(p, a + b);
      assert (a + b)[1..] == a[1..] + b;
    }
  }

  lemma OfHead(p: nat, msgs: seq<Message>)
    requires msgs != []
    ensures Of(p, msgs) == (if msgs[0].priority == p then [msgs[0]] else []) + Of(p, msgs[1..])
  {
  }

  lemma OfOne(p: nat, m: Message)
    ensures Of(p, [m]) == if m.priority == p then [m] else []
  {
    assert [m][1..] == [];
    assert Of(p, []) == [];
  }

  lemma ArriveConserves(s: Sched, msg: Message, p: nat)
    requires Valid(s) && p < LEVELS && |Push(s, msg).0.queues| == LEVELS
    ensures Push(s, msg).0.queues[p] == s.queues[p] + Of(p, Accepted1(s, Arrive(msg)))
  {
    hide Of;
    PushKeeps(s, msg);
    OfNone(p);
    OfOne(p, msg);
  }

  lemma TakeConserves(s: Sched, p: nat)
    requires Valid(s) && p < LEVELS && |TryDequeue(s).0.queues| == LEVELS
    ensures Of(p, Delivered1(s, Take)) + TryDequeue(s).0.queues[p] == s.queues[p]
  {
    hide Of, TryDequeue, Valid;
    ValidShape(s);
    DequeueForm(s);
    OfNone(p);
    if TryDequeue(s).1.Some? { OfOne(p, TryDequeue(s).1.value); }
  }

  /** One act: what was there and came in is what went out and is left, level by level and in order. */
  lemma ActConserves(s: Sched, a: Act, p: nat)
    requires Valid(s) && p < LEVELS
    ensures Valid(Do(s, a).0)
    ensures Of(p, Delivered1(s, a)) + Do(s, a).0.queues[p] == s.queues[p] + Of(p, Accepted1(s, a))
  {
    hide Of, TryDequeue, Push, Valid;
    DoKeeps(s, a);
    ValidShape(s);
    ValidShape(Do(s, a).0);
    OfNone(p);
    match a
    case Arrive(msg) => ArriveConserves(s, msg, p);
    case Take => TakeConserves(s, p);
  }

  /** First in, first out on every level, with nothing lost, duplicated or invented. */
  lemma {:induction false} FirstInFirstOut(s: Sched, acts: seq<Act>, p: nat)
    requires Valid(s) && p < LEVELS
    ensures Of(p, Delivered(s, acts)) + After(s, acts).queues[p] == s.queues[p] + Of(p, Accepted(s, acts))
    decreases |acts|
  {
    hide Valid, Do, Delivered1, Accepted1, Of;
    ValidShape(s);
    if acts == [] {
      OfNone(p);
    } else {
      ActConserves(s, acts[0], p);
      var t := Do(s, acts[0]).0;
      ValidShape(t);
      FirstInFirstOut(t, acts[1..], p);
      ValidShape(After(s, acts));
      OfSplits(p, Delivered1(s, acts[0]), Delivered(t, acts[1..]));
      OfSplits(p, Accepted1(s, acts[0]), Accepted(t, acts[1..]));
      calc {
        Of(p, Delivered(s, acts)) + After(s, acts).queues[p];
        Of(p, Delivered1(s, acts[0])) + (Of(p, Delivered(t, acts[1..])) + After(t, acts[1..]).queues[p]);
        Of(p, Delivered1(s, acts[0])) + (t.queues[p] + Of(p, Accepted(t, acts[1..])));
        (s.queues[p] + Of(p, Accepted1(s, acts[0]))) + Of(p, Accepted(t, acts[1..]));
        s.queues[p] + Of(p, Accepted(s, acts));
      }
    }
  }

  lemma OfNone(p: nat)
    ensures Of(p, []) == []
  {
  }

  // ----- bounded waiting -----

  function Min(a: nat, b: nat): nat { if a < b then a else b }

  /** Dequeues until level `p` is served at the latest: whole rounds of eleven, and the rest of this one. */
  function Wait(s: Sched, p: nat): (n: nat)
    requires s.lastYield < LEVELS && 1 <= p <= 3
    ensures 1 <= n <= 33
  {
    (Distance(s.lastYield, p) - 1) * 11 + 11 - Min(s.consecutive, PATIENCE)
  }

  /** Every dequeue finds Priority 0 waiting. */
  ghost predicate Busy(s: Sched, acts: seq<Act>)
    requires Valid(s)
    decreases |acts|
  {
    acts == [] ||
    (DoKeeps(s, acts[0]);
     (acts[0].Take? ==> s.queues[0] != []) && Busy(Do(s, acts[0]).0, acts[1..]))
  }

  /**
   * A dequeue that passes level `p` over for a level strictly between 0 and `p`, because Priority 0 is empty;
   * it restarts the count towards the next yield.
   */
  ghost predicate Skip(s: Sched, p: nat)
    requires |s.queues| == LEVELS
  {
    s.consecutive < PATIENCE && s.queues[0] == [] && exists q :: 0 < q < p && q < LEVELS && s.queues[q] != []
  }

  /** How many dequeues of a run skip level `p`. */
  ghost function Skips(s: Sched, acts: seq<Act>, p: nat): nat
    requires Valid(s)
    decreases |acts|
  {
    if acts == [] then 0
    else
      DoKeeps(s, acts[0]);
      (if acts[0].Take? && Skip(s, p) then 1 else 0) + Skips(Do(s, acts[0]).0, acts[1..], p)
  }

  /** A dequeue serves level `p`, or brings its turn closer, or skips it and sets it back by less than ten. */
  lemma TakeWaits(s: Sched, p: nat)
    requires Valid(s) && 1 <= p <= 3 && s.queues[p] != []
    ensures var (t, m) := TryDequeue(s);
            && m.Some? && t.lastYield < LEVELS
            && (m.value.priority == p ==> !Skip(s, p))
            && (m.value.priority != p ==> Wait(t, p) < Wait(s, p) + if Skip(s, p) then 10 else 0)
  {
    hide Yield, Select, Distance;
    YieldForm(s, 3);
    SelectForm(s, 0);
    if s.consecutive >= PATIENCE {
      YieldReaches(s, 3, p);
      assert TryDequeue(s) == Yield(s, 3);
    } else {
      assert TryDequeue(s) == Select(s, 0);
    }
  }

  lemma ArriveWaits(s: Sched, msg: Message, p: nat)
    requires Valid(s) && 1 <= p <= 3
    ensures var t := Push(s, msg).0;
            t.lastYield == s.lastYield && t.consecutive == s.consecutive && |s.queues[p]| <= |t.queues[p]|
  {
  }

  lemma {:induction false} ServedWithin(s: Sched, acts: seq<Act>, p: nat, k: nat)
    requires Valid(s) && 1 <= p <= 3 && k < |s.queues[p]|
    requires Takes(acts) >= Wait(s, p) + 33 * k + 10 * Skips(s, acts, p)
    ensures |Of(p, Delivered(s, acts))| > k
    decreases |acts|
  {
    hide Of, TryDequeue, Push, Wait, Skip;
    var t := Do(s, acts[0]).0;
    DoKeeps(s, acts[0]);
    OfSplits(p, Delivered1(s, acts[0]), Delivered(t, acts[1..]));
    if acts[0].Arrive? {
      ArriveWaits(s, acts[0].msg, p);
      WaitSame(s, t, p);
      OfNone(p);
      ServedWithin(t, acts[1..], p, k);
    } else {
      TakeWaits(s, p);
      DequeueForm(s);
      var m := TryDequeue(s).1.value;
      OfOne(p, m);
      if m.priority != p {
        ServedWithin(t, acts[1..], p, k);
      } else if k > 0 {
        ServedWithin(t, acts[1..], p, k - 1);
      }
    }
  }

  lemma WaitSame(s: Sched, t: Sched, p: nat)
    requires s.lastYield < LEVELS && 1 <= p <= 3 && t.lastYield == s.lastYield && t.consecutive == s.consecutive
    ensures Wait(t, p) == Wait(s, p)
  {
  }

  /**
   * Bounded waiting under any traffic: the message at index `k` of level 1, 2 or 3 is delivered, in order,
   * within 33 * (k + 1) dequeues and ten more for each dequeue that skips its level.
   */
  lemma BoundedWaiting(s: Sched, acts: seq<Act>, p: nat, k: nat)
    requires Valid(s) && 1 <= p <= 3 && k < |s.queues[p]|
    requires Takes(acts) >= 33 * (k + 1) + 10 * Skips(s, acts, p)
    ensures var out := Of(p, Delivered(s, acts)); |out| > k && out[..k + 1] == s.queues[p][..k + 1]
  {
    ServedWithin(s, acts, p, k);
    FirstInFirstOut(s, acts, p);
    var out := Of(p, Delivered(s, acts));
    assert (out + After(s, acts).queues[p])[..k + 1] == out[..k + 1];
    assert (s.queues[p] + Of(p, Accepted(s, acts)))[..k + 1] == s.queues[p][..k + 1];
  }

  /** Level 1 is never skipped, and no level is while Priority 0 is waiting. */
  lemma {:induction false} NeverSkipped(s: Sched, acts: seq<Act>, p: nat)
    requires Valid(s) && (p == 1 || Busy(s, acts))
    ensures Skips(s, acts, p) == 0
    decreases |acts|
  {
    hide Do;
    if acts != [] {
      DoKeeps(s, acts[0]);
      NeverSkipped(Do(s, acts[0]).0, acts[1..], p);
    }
  }

  /**
   * Without skips the bound depends on no traffic: 33 * (k + 1) dequeues on level 1 whatever arrives, and on
   * levels 2 and 3 while every dequeue finds Priority 0 waiting.
   */
  lemma UnskippedWaiting(s: Sched, acts: seq<Act>, p: nat, k: nat)
    requires Valid(s) && 1 <= p <= 3 && k < |s.queues[p]| && (p == 1 || Busy(s, acts))
    requires Takes(acts) >= 33 * (k + 1)
    ensures var out := Of(p, Delivered(s, acts)); |out| > k && out[..k + 1] == s.queues[p][..k + 1]
  {
    NeverSkipped(s, acts, p);
    BoundedWaiting(s, acts, p, k);
  }

  /** Every dequeue finds some message below Priority 0 waiting. */
  ghost predicate LowerWaits(s: Sched, acts: seq<Act>)
    requires Valid(s)
    decreases |acts|
  {
    acts == [] ||
    (DoKeeps(s, acts[0]);
     (acts[0].Take? ==> s.queues[1] != [] || s.queues[2] != [] || s.queues[3] != []) &&
         LowerWaits(Do(s, acts[0]).0, acts[1..]))
  }

  ghost predicate OnlyHighest(msgs: seq<Message>) {
    forall i :: 0 <= i < |msgs| ==> msgs[i].priority == 0
  }

  /** A run of Priority-0 messages past waiting lower ones is at most ten long. */
  lemma {:induction false} RunOfHighest(s: Sched, acts: seq<Act>)
    requires Valid(s) && LowerWaits(s, acts) && OnlyHighest(Delivered(s, acts))
    ensures Takes(acts) == 0 || Takes(acts) + Min(s.consecutive, PATIENCE) <= PATIENCE
    decreases |acts|
  {
    if acts != [] {
      var t := Do(s, acts[0]).0;
      DoKeeps(s, acts[0]);
      var first, rest := Delivered1(s, acts[0]), Delivered(t, acts[1..]);
      assert Delivered(s, acts) == first + rest;
      assert forall i :: 0 <= i < |rest| ==> rest[i] == (first + rest)[|first| + i];
      if acts[0].Arrive? {
        ArriveWaits(s, acts[0].msg, 1);
      } else {
        TakeHighest(s);
        DequeueForm(s);
        assert first[0] == (first + rest)[0];
      }
      RunOfHighest(t, acts[1..]);
    }
  }

  lemma TakeHighest(s: Sched)
    requires Valid(s) && (s.queues[1] != [] || s.queues[2] != [] || s.queues[3] != [])
    ensures var (t, m) := TryDequeue(s);
            m.Some? && (m.value.priority == 0 ==> s.consecutive < PATIENCE && t.consecutive == s.consecutive + 1)
  {
    hide Yield, Select;
    YieldForm(s, 3);
    SelectForm(s, 0);
    if s.consecutive >= PATIENCE {
      var p := if s.queues[1] != [] then 1 else if s.queues[2] != [] then 2 else 3;
      YieldReaches(s, 3, p);
      assert TryDequeue(s) == Yield(s, 3);
    } else {
      assert TryDequeue(s) == Select(s, 0);
    }
  }

  /** Among any eleven dequeues that each find a lower message waiting, one returns a lower message. */
  lemma LowerIsServed(s: Sched, acts: seq<Act>)
    requires Valid(s) && LowerWaits(s, acts) && Takes(acts) >= 11
    ensures exists i :: 0 <= i < |Delivered(s, acts)| && Delivered(s, acts)[i].priority > 0
  {
    if forall i :: 0 <= i < |Delivered(s, acts)| ==> Delivered(s, acts)[i].priority <= 0 {
      DeliveredLevels(s, acts);
      RunOfHighest(s, acts);
    }
  }

  lemma {:induction false} DeliveredLevels(s: Sched, acts: seq<Act>)
    requires Valid(s)
    ensures forall i :: 0 <= i < |Delivered(s, acts)| ==> 0 <= Delivered(s, acts)[i].priority < LEVELS
    decreases |acts|
  {
    if acts != [] {
      DoKeeps(s, acts[0]);
      DequeueForm(s);
      DeliveredLevels(Do(s, acts[0]).0, acts[1..]);
    }
  }

  /**
   * Strict priority outside the yield rule: a message is returned past a waiting more urgent one only
   * after ten Priority-0 messages in a row, and then the next dequeue is strict again.
   */
  lemma PriorityOrder(s: Sched)
    requires Valid(s)
    ensures var (t, m) := TryDequeue(s);
            m.Some? && (exists q :: 0 <= q < m.value.priority && s.queues[q] != []) ==>
              s.consecutive >= 10 && m.value.priority > 0 && t.consecutive == 0
  {
    hide Yield, Select;
    YieldForm(s, 3);
    SelectForm(s, 0);
    SelectForm(Yield(s, 3).0, 0);
  }

  /** While Priority 0 is waiting, the dequeues up to the next yield all return Priority-0 messages. */
  lemma {:induction false} HighestComeFirst(s: Sched, acts: seq<Act>, i: nat)
    requires Valid(s) && Busy(s, acts) && i < |Delivered(s, acts)| && i + s.consecutive < 10
    ensures Delivered(s, acts)[i].priority == 0
    decreases |acts|
  {
    hide TryDequeue, Push;
    var t := Do(s, acts[0]).0;
    DoKeeps(s, acts[0]);
    if acts[0].Arrive? {
      ArriveWaits(s, acts[0].msg, 1);
      HighestComeFirst(t, acts[1..], i);
    } else {
      BusyTake(s);
      if i > 0 { HighestComeFirst(t, acts[1..], i - 1); }
    }
  }

  /** A dequeue that finds Priority 0 waiting returns it, or yields and starts the count anew. */
  lemma BusyTake(s: Sched)
    requires Valid(s) && s.queues[0] != []
    ensures var (t, m) := TryDequeue(s);
            && m.Some?
            && (s.consecutive < PATIENCE ==> m.value.priority == 0 && t.consecutive == s.consecutive + 1)
            && (m.value.priority != 0 ==> t.consecutive == 0)
  {
    hide Yield, Select;
    YieldForm(s, 3);
    BusySelect(if s.consecutive >= PATIENCE && Yield(s, 3).1.None? then Yield(s, 3).0 else s);
  }

  lemma BusySelect(s: Sched)
    requires |s.queues| == LEVELS && s.queues[0] != []
    ensures Select(s, 0) == Serve(s, 0, s.consecutive + 1)
  {
  }

  /**
   * Priority 0 is prompt, whatever arrives in between: over a run whose every dequeue finds Priority 0
   * waiting, at least ten Priority-0 messages are delivered between any two lower ones.
   */
  lemma {:induction false} HighestIsPrompt(s: Sched, acts: seq<Act>, i: nat, j: nat)
    requires Valid(s) && Busy(s, acts) && i < j < |Delivered(s, acts)|
    requires Delivered(s, acts)[i].priority != 0 && Delivered(s, acts)[j].priority != 0
    ensures j - i > 10
    decreases |acts|
  {
    hide TryDequeue, Push;
    var t := Do(s, acts[0]).0;
    DoKeeps(s, acts[0]);
    if acts[0].Arrive? {
      HighestIsPrompt(t, acts[1..], i, j);
    } else {
      BusyTake(s);
      if i > 0 {
        HighestIsPrompt(t, acts[1..], i - 1, j - 1);
      } else if j <= 10 {
        HighestComeFirst(t, acts[1..], j - 1);
      }
    }
  }

  // ----- without Priority-0 traffic the lower levels have no such guarantee -----

  function Repeat(acts: seq<Act>, n: nat): seq<Act> {
    if n == 0 then [] else acts + Repeat(acts, n - 1)
  }

  /** One Priority-1 message and one below it. */
  function Pressed(high: Message, low: Message, capacity: nat, emergencyCap: nat, last: nat): Sched {
    Sched([[], [high], if low.priority == 2 then [low] else [], if low.priority == 3 then [low] else []],
          0, last, capacity, emergencyCap)
  }

  /**
   * The yield rule counts Priority-0 messages only: a Priority-1 message before every dequeue starves a
   * waiting message of level 2 or 3 for as long as one likes, so the term for skips is needed.
   */
  lemma {:induction false} LowerStarves(high: Message, low: Message, capacity: nat, emergencyCap: nat, last: nat,
                                        n: nat)
    requires high.priority == 1 && 2 <= low.priority <= 3 && capacity >= 2 && last < LEVELS
    ensures var s := Pressed(high, low, capacity, emergencyCap, last);
            var acts := Repeat([Arrive(high), Take], n);
            Valid(s) && s.queues[low.priority] == [low] && Takes(acts) == n && After(s, acts) == s &&
                Of(low.priority, Delivered(s, acts)) == []
    decreases n
  {
    hide TryDequeue, Push, Of;
    var s := Pressed(high, low, capacity, emergencyCap, last);
    OfNone(low.priority);
    if n > 0 {
      LowerStarves(high, low, capacity, emergencyCap, last, n - 1);
      var rest := Repeat([Arrive(high), Take], n - 1);
      HighRound(s, s.(queues := s.queues[1 := [high, high]]), high);
      TwoActs(s, Arrive(high), Take, rest);
      var acts := Repeat([Arrive(high), Take], n);
      assert acts == [Arrive(high), Take] + rest;
      assert Delivered(s, acts) == [] + ([high] + Delivered(s, rest)) == [high] + Delivered(s, rest);
      OfSplits(low.priority, [high], Delivered(s, rest));
      OfOne(low.priority, high);
    }
  }

  lemma TwoActs(s: Sched, a: Act, b: Act, rest: seq<Act>)
    requires Valid(s) && Valid(Do(s, a).0)
    ensures var t := Do(s, a).0;
            var u := Do(t, b).0;
            var acts := [a, b] + rest;
            && Valid(u)
            && After(s, acts) == After(u, rest)
            && Delivered(s, acts) == Delivered1(s, a) + (Delivered1(t, b) + Delivered(u, rest))
            && Takes(acts) == Takes([a]) + Takes([b]) + Takes(rest)
  {
    hide Valid, Do, Delivered1;
    var acts := [a, b] + rest;
    ValidShape(s);
    var t := Do(s, a).0;
    ValidShape(t);
    DoKeeps(t, b);
    assert acts[0] == a && acts[1..] == [b] + rest && acts[1..][0] == b && acts[1..][1..] == rest;
    assert [a][1..] == [] && [b][1..] == [];
  }

  lemma HighRound(s: Sched, t: Sched, high: Message)
    requires |s.queues| == LEVELS && s.queues[0] == [] && s.queues[1] == [high] && s.consecutive == 0 &&
               s.capacity >= 2 && high.priority == 1
    requires t == s.(queues := s.queues[1 := [high, high]])
    ensures Push(s, high) == (t, None) && TryDequeue(t) == (s, Some(high))
  {
    assert [high] + [high] == [high, high] && [high, high][1..] == [high];
    assert Select(t, 0) == Select(t, 1) == Serve(t, 1, 0);
    assert t.queues[1 := t.queues[1][1..]] == s.queues;
  }
}
