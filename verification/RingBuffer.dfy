/** The telemetry ring buffer: pkg/queues/buffer.go. */
module RingBuffer {
  import opened Common

  /** An ideal bounded queue that drops its oldest item when full. */
  datatype Ideal = Ideal(items: seq<Bytes>, capacity: nat)

  datatype Act = Push(payload: Bytes) | Pop

  function Do(q: Ideal, a: Act): Ideal {
    match a
    case Push(payload) =>
      if |q.items| == q.capacity && q.items != [] then q.(items := q.items[1..] + [payload])
      else q.(items := q.items + [payload])
    case Pop => if q.items == [] then q else q.(items := q.items[1..])
  }

  /** The push that drops the oldest item. */
  predicate Drops(q: Ideal, a: Act) { a.Push? && |q.items| == q.capacity }

  predicate Returns(q: Ideal, a: Act) { a.Pop? && q.items != [] }

  // ----- the object -----

  /** The slot of the i-th item, for a head and an index within one turn of the ring. */
  function Slot(head: nat, i: nat, capacity: nat): (k: nat)
    requires head < capacity && i <= capacity
    ensures k < capacity
  {
    if head + i < capacity then head + i else head + i - capacity
  }

  /** What the source computes with a remainder. */
  lemma SlotIsRemainder(head: nat, i: nat, capacity: nat)
    requires head < capacity && i <= capacity
    ensures (head + i) % capacity == Slot(head, i, capacity)
  {
    var x := head + i;
    var q := if x < capacity then 0 else 1;
    assert x == q * capacity + Slot(head, i, capacity);
    Remainder(x, capacity, q, Slot(head, i, capacity));
  }

  lemma Remainder(x: nat, c: nat, q: nat, r: nat)
    requires 0 < c && r < c && x == q * c + r
    ensures x % c == r
  {
    var q', r' := x / c, x % c;
    assert x == q' * c + r';
    assert (q - q') * c == r' - r;
    assert q - q' >= 1 ==> (q - q') * c >= c;
    assert q - q' <= -1 ==> (q - q') * c <= 0 - c;
  }

  class TelemetryRingBuffer {
    var buffer: array<Bytes>
    const capacity: nat
    var head: nat
    var tail: nat
    var size: nat

    ghost predicate Valid()
      reads this
    {
      buffer.Length == capacity && head < capacity && size <= capacity && tail == Slot(head, size, capacity)
    }

    /** The buffered items, oldest first. */
    ghost function Contents(): (s: seq<Bytes>)
      reads this, buffer
      requires Valid()
      ensures |s| == size
    {
      seq(size, i requires 0 <= i < size reads this, buffer requires Valid() => buffer[Slot(head, i, capacity)])
    }

    ghost function View(): Ideal
      reads this, buffer
      requires Valid()
    {
      Ideal(Contents(), capacity)
    }

    constructor (capacity: nat)
      requires capacity > 0
      ensures Valid() && fresh(buffer) && View() == Ideal([], capacity)
    {
      this.capacity := capacity;
      buffer := new Bytes[capacity](_ => []);
      head, tail, size := 0, 0, 0;
    }

    method Push(payload: Bytes) returns (dropped: bool)
      requires Valid()
      modifies this`head, this`tail, this`size, buffer
      ensures Valid() && View() == Do(old(View()), Act.Push(payload))
      ensures dropped == Drops(old(View()), Act.Push(payload))
      ensures tail == (head + size) % capacity
    {
      SlotIsRemainder(head, 1, capacity);
      SlotIsRemainder(tail, 1, capacity);
      ghost var was := Contents();
      if size == capacity {
        dropped := true;
        buffer[head] := payload;
        head := (head + 1) % capacity;
        tail := (tail + 1) % capacity;
        assert Contents() == was[1..] + [payload];
      } else {
        dropped := false;
        buffer[tail] := payload;
        tail := (tail + 1) % capacity;
        size := size + 1;
        assert Contents() == was + [payload];
      }
      SlotIsRemainder(head, size, capacity);
    }

    method Pop() returns (r: Option<Bytes>)
      requires Valid()
      modifies this`head, this`size, buffer
      ensures Valid() && View() == Do(old(View()), Act.Pop)
      ensures r == if Returns(old(View()), Act.Pop) then Some(old(Contents())[0]) else None
      ensures tail == (head + size) % capacity
    {
      SlotIsRemainder(head, size, capacity);
      if size == 0 { return None; }
      SlotIsRemainder(head, 1, capacity);
      ghost var was := Contents();
      r := Some(buffer[head]);
      buffer[head] := [];
      head := (head + 1) % capacity;
      size := size - 1;
      assert Contents() == was[1..];
      SlotIsRemainder(head, size, capacity);
    }
  }

  // ----- whole runs -----

  function After(q: Ideal, acts: seq<Act>): Ideal
    decreases |acts|
  {
    if acts == [] then q else After(Do(q, acts[0]), acts[1..])
  }

  /** Everything pushed during a run, in order. */
  function Pushed(acts: seq<Act>): seq<Bytes> {
    if acts == [] then [] else (if acts[0].Push? then [acts[0].payload] else []) + Pushed(acts[1..])
  }

  /** Items lost to the drop rule during a run. */
  function Dropped(q: Ideal, acts: seq<Act>): nat
    decreases |acts|
  {
    if acts == [] then 0 else (if Drops(q, acts[0]) then 1 else 0) + Dropped(Do(q, acts[0]), acts[1..])
  }

  /** Items handed out during a run. */
  function Popped(q: Ideal, acts: seq<Act>): nat
    decreases |acts|
  {
    if acts == [] then 0 else (if Returns(q, acts[0]) then 1 else 0) + Popped(Do(q, acts[0]), acts[1..])
  }

  /**
   * Over any run the buffer holds the newest items, in order, that were neither popped nor dropped:
   * the oldest ones leave first either way, and pushes = pops + drops + size.
   */
  lemma {:induction false} NewestUnpopped(q: Ideal, acts: seq<Act>)
    requires q.capacity > 0 && |q.items| <= q.capacity
    ensures var all := q.items + Pushed(acts);
            var left := Popped(q, acts) + Dropped(q, acts);
            && |all| == left + |After(q, acts).items|
            && After(q, acts).items == all[left..]
            && |After(q, acts).items| <= q.capacity
    decreases |acts|
  {
    hide Do, Drops, Returns;
    if acts != [] {
      var r := Do(q, acts[0]);
      OneAct(q, acts[0]);
      NewestUnpopped(r, acts[1..]);
      var rest := Pushed(acts[1..]);
      var first := if acts[0].Push? then [acts[0].payload] else [];
      var gone := if Drops(q, acts[0]) || Returns(q, acts[0]) then 1 else 0;
      var all := q.items + first + rest;
      assert r.items + rest == all[gone..];
      assert q.items + Pushed(acts) == all;
      var left := Popped(r, acts[1..]) + Dropped(r, acts[1..]);
      assert all[gone..][left..] == all[gone + left..];
    }
  }

  lemma OneAct(q: Ideal, a: Act)
    requires q.capacity > 0 && |q.items| <= q.capacity
    ensures var first := if a.Push? then [a.payload] else [];
            var gone := if Drops(q, a) || Returns(q, a) then 1 else 0;
            && gone <= |q.items + first|
            && Do(q, a).items == (q.items + first)[gone..]
            && Do(q, a).capacity == q.capacity && |Do(q, a).items| <= q.capacity
            && !(Drops(q, a) && Returns(q, a))
  {
  }

  /** What a pop returns is the oldest item that has neither been popped nor dropped. */
  lemma PopReturnsOldest(q: Ideal, acts: seq<Act>)
    requires q.capacity > 0 && |q.items| <= q.capacity && Returns(After(q, acts), Pop)
    ensures var left := Popped(q, acts) + Dropped(q, acts);
            left < |q.items + Pushed(acts)| && After(q, acts).items[0] == (q.items + Pushed(acts))[left]
  {
    NewestUnpopped(q, acts);
  }

  /** An item is dropped only when the buffer is full, and then it is the oldest. */
  lemma DropsOldest(q: Ideal, payload: Bytes)
    requires 0 < q.capacity && |q.items| <= q.capacity
    ensures Drops(q, Push(payload)) <==> |Do(q, Push(payload)).items| != |q.items| + 1
    ensures Drops(q, Push(payload)) ==> q.items + [payload] == [q.items[0]] + Do(q, Push(payload)).items
  {
    if |q.items| == q.capacity {
      assert q.items == [q.items[0]] + q.items[1..];
    }
  }
}
