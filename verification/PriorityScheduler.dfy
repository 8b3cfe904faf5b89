/** The outbound scheduler as the mutable object it is: pkg/queues/scheduler.go. */
module PriorityScheduler {
  import opened Common
  import opened Scheduler

  class PriorityScheduler {
    const capacity: int
    const emergencyCap: int
    var queues: seq<seq<Message>>
    var consecutiveP0: nat
    var lastYield: nat

    constructor (capacity: int, emergencyCap: int)
      requires capacity > 0 && emergencyCap > 0
      ensures View() == Empty(capacity, emergencyCap) && Scheduler.Valid(View())
    {
      this.capacity := capacity;
      this.emergencyCap := emergencyCap;
      queues, consecutiveP0, lastYield := [[], [], [], []], 0, 0;
    }

    ghost function View(): Sched
      reads this
    {
      Sched(queues, consecutiveP0, lastYield, capacity, emergencyCap)
    }

    method Push(msg: Message) returns (err: Option<PushError>)
      requires Scheduler.Valid(View())
      modifies this
      ensures View() == Scheduler.Push(old(View()), msg).0 && err == Scheduler.Push(old(View()), msg).1
      ensures Scheduler.Valid(View())
    {
      PushKeeps(View(), msg);
      if msg.priority < 0 || msg.priority >= LEVELS { return Some(InvalidPriority); }
      var full := if msg.priority == 0 then |queues[0]| >= emergencyCap else |queues[msg.priority]| >= capacity;
      if full { return Some(QueueFull); }
      queues := queues[msg.priority := queues[msg.priority] + [msg]];
      return None;
    }

    method Pop(p: nat) returns (msg: Message)
      requires p < |queues| && queues[p] != []
      modifies this`queues
      ensures msg == old(queues)[p][0] && queues == old(queues)[p := old(queues)[p][1..]]
    {
      msg := queues[p][0];
      queues := queues[p := queues[p][1..]];
    }

    method TryDequeue() returns (r: Option<Message>)
      requires Scheduler.Valid(View())
      modifies this
      ensures View() == Scheduler.TryDequeue(old(View())).0 && r == Scheduler.TryDequeue(old(View())).1
      ensures Scheduler.Valid(View())
    {
      hide Scheduler.Valid;
      DequeueForm(View());
      ValidShape(View());
      if consecutiveP0 >= PATIENCE {
        r := YieldRound();
        if r.Some? { return; }
      }
      r := SelectRound();
    }

    method YieldRound() returns (r: Option<Message>)
      requires |queues| == LEVELS
      modifies this
      ensures View() == Yield(old(View()), 3).0 && r == Yield(old(View()), 3).1
      ensures |queues| == LEVELS
    {
      var i := 1;
      while i <= 3
        invariant 1 <= i <= 4 && queues == old(queues) && consecutiveP0 == old(consecutiveP0)
        invariant Yield(View(), 4 - i) == Yield(old(View()), 3)
      {
        lastYield := NextLevel(lastYield);
        if |queues[lastYield]| > 0 {
          var msg := Pop(lastYield);
          consecutiveP0 := 0;
          return Some(msg);
        }
        i := i + 1;
      }
      return None;
    }

    method SelectRound() returns (r: Option<Message>)
      requires |queues| == LEVELS
      modifies this
      ensures View() == Select(old(View()), 0).0 && r == Select(old(View()), 0).1
    {
      var p := 0;
      while p < LEVELS
        invariant 0 <= p <= LEVELS && View() == old(View())
        invariant Select(View(), p) == Select(old(View()), 0)
      {
        if |queues[p]| > 0 {
          var msg := Pop(p);
          consecutiveP0 := if p == 0 then consecutiveP0 + 1 else 0;
          return Some(msg);
        }
        p := p + 1;
      }
      return None;
    }
  }
}
