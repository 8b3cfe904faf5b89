/**
 * The bounded result queue and its back-pressure monitor: pkg/queues/results.go and
 * pkg/queues/hysteresis.go. Utilization is an exact ratio.
 */
module ResultQueue {
  import opened Common

  /** The queue's contents and capacity, and the monitor's state and watermarks. */
  datatype Gauge = Gauge(items: seq<Bytes>, capacity: nat, throttled: bool, upper: real, lower: real)

  /** What the constructors insist on. */
  ghost predicate Valid(g: Gauge) {
    g.capacity > 0 && |g.items| <= g.capacity && 0.0 <= g.lower < g.upper <= 1.0
  }

  function Utilization(g: Gauge): real
    requires g.capacity > 0
  {
    |g.items| as real / g.capacity as real
  }

  datatype Act = Push(payload: Bytes) | Pop | Check

  function Checked(g: Gauge): bool
    requires g.capacity > 0
  {
    if g.throttled then !(Utilization(g) <= g.lower) else Utilization(g) >= g.upper
  }

  function Do(g: Gauge, a: Act): Gauge
    requires g.capacity > 0
  {
    match a
    case Push(payload) => if |g.items| >= g.capacity then g else g.(items := g.items + [payload])
    case Pop => if g.items == [] then g else g.(items := g.items[1..])
    case Check => g.(throttled := Checked(g))
  }

  // ----- the objects -----

  class CommandResultQueue {
    var items: seq<Bytes>
    const capacity: nat

    constructor (capacity: nat)
      requires capacity > 0
      ensures this.capacity == capacity && items == []
    {
      this.capacity := capacity;
      items := [];
    }

    method Push(payload: Bytes) returns (ok: bool)
      modifies this
      ensures ok <==> |old(items)| < capacity
      ensures items == if ok then old(items) + [payload] else old(items)
      ensures capacity > 0 ==> items == Do(Gauge(old(items), capacity, false, 1.0, 0.0), Act.Push(payload)).items
    {
      if |items| >= capacity { return false; }
      items := items + [payload];
      return true;
    }

    method Pop() returns (r: Option<Bytes>)
      modifies this
      ensures old(items) == (if r.Some? then [r.value] else []) + items
      ensures r.None? <==> old(items) == []
      ensures capacity > 0 ==> items == Do(Gauge(old(items), capacity, false, 1.0, 0.0), Act.Pop).items
    {
      if |items| == 0 { return None; }
      r := Some(items[0]);
      items := if |items| == 1 then [] else items[1..];
    }

    function Utilization(): real
      reads this
      requires capacity > 0
    {
      |items| as real / capacity as real
    }
  }

  class HysteresisMonitor {
    const provider: CommandResultQueue
    const upper: real
    const lower: real
    var isThrottled: bool

    constructor (provider: CommandResultQueue, upper: real, lower: real)
      requires 0.0 <= lower < upper <= 1.0
      ensures this.provider == provider && this.upper == upper && this.lower == lower && !isThrottled
    {
      this.provider := provider;
      this.upper := upper;
      this.lower := lower;
      isThrottled := false;
    }

    ghost function View(): Gauge
      reads this, provider
    {
      Gauge(provider.items, provider.capacity, isThrottled, upper, lower)
    }

    /** Throttled at or above the upper watermark, not at or below the lower, and as before in between. */
    method IsThrottled() returns (r: bool)
      requires provider.capacity > 0 && lower < upper
      modifies this
      ensures |provider.items| as real >= upper * provider.capacity as real ==> r
      ensures |provider.items| as real <= lower * provider.capacity as real ==> !r
      ensures lower * provider.capacity as real < |provider.items| as real < upper * provider.capacity as real ==>
                r == old(isThrottled)
      ensures r == isThrottled && View() == Do(old(View()), Check)
    {
      WatermarksDecide(View());
      var util := provider.Utilization();
      if isThrottled {
        if util <= lower { isThrottled := false; }
      } else {
        if util >= upper { isThrottled := true; }
      }
      return isThrottled;
    }
  }

  /** A check reports throttling at the upper watermark, none at the lower, and no change in between. */
  lemma WatermarksDecide(g: Gauge)
    requires g.capacity > 0 && g.lower < g.upper
    ensures |g.items| as real >= g.upper * g.capacity as real ==> Do(g, Check).throttled
    ensures |g.items| as real <= g.lower * g.capacity as real ==> !Do(g, Check).throttled
    ensures g.lower * g.capacity as real < |g.items| as real < g.upper * g.capacity as real ==>
              Do(g, Check).throttled == g.throttled
  {
    RatioBound(|g.items|, g.capacity, g.lower);
    RatioBound(|g.items|, g.capacity, g.upper);
  }

  // ----- flips cost traffic -----

  /** How often the monitor changes its mind during a run. */
  function Flips(g: Gauge, acts: seq<Act>): nat
    requires g.capacity > 0
    decreases |acts|
  {
    if acts == [] then 0
    else (if Do(g, acts[0]).throttled != g.throttled then 1 else 0) + Flips(Do(g, acts[0]), acts[1..])
  }

  /** The pushes and pops of a run. */
  function Traffic(acts: seq<Act>): nat {
    if acts == [] then 0 else (if acts[0].Check? then 0 else 1) + Traffic(acts[1..])
  }

  /** The distance between the watermarks, in messages. */
  function Band(g: Gauge): real {
    (g.upper - g.lower) * g.capacity as real
  }

  /** How far the queue is from the watermark that flips the monitor next, in messages. */
  function Gap(g: Gauge): real {
    if g.throttled then |g.items| as real - g.lower * g.capacity as real
    else g.upper * g.capacity as real - |g.items| as real
  }

  lemma RatioBound(n: nat, c: nat, x: real)
    requires c > 0
    ensures n as real / c as real <= x <==> n as real <= x * c as real
    ensures n as real / c as real >= x <==> n as real >= x * c as real
  {
    var r := n as real / c as real;
    assert r * c as real == n as real;
  }

  /** A flip happens with nothing left to go, and leaves at least the whole band to go. */
  lemma FlipGap(g: Gauge)
    requires Valid(g)
    ensures Do(g, Check).throttled != g.throttled ==> Gap(g) <= 0.0 && Gap(Do(g, Check)) >= Band(g)
    ensures Do(g, Check).throttled == g.throttled ==> Do(g, Check) == g
  {
    RatioBound(|g.items|, g.capacity, g.lower);
    RatioBound(|g.items|, g.capacity, g.upper);
    BandSplits(g.upper, g.lower, g.capacity as real);
  }

  lemma BandSplits(u: real, l: real, c: real)
    ensures (u - l) * c == u * c - l * c
  {
  }

  lemma TrafficGap(g: Gauge, a: Act)
    requires Valid(g) && !a.Check?
    ensures var h := Do(g, a); Gap(h) >= Gap(g) - 1.0 && Valid(h) && Band(h) == Band(g) && h.throttled == g.throttled
  {
  }

  /** `n` bands, added up. */
  function Bands(n: nat, band: real): real {
    if n == 0 then 0.0 else band + Bands(n - 1, band)
  }

  lemma {:induction false} BandsMultiply(n: nat, band: real)
    ensures Bands(n, band) == n as real * band
  {
    if n > 0 {
      BandsMultiply(n - 1, band);
      assert (n - 1) as real + 1.0 == n as real;
      BandSplits(n as real, (n - 1) as real, band);
    }
  }

  lemma {:induction false} TrafficFrom(g: Gauge, acts: seq<Act>)
    requires Valid(g) && Flips(g, acts) >= 1
    ensures Traffic(acts) as real >= Gap(g) + Bands(Flips(g, acts) - 1, Band(g))
    ensures Traffic(acts) as real >= Bands(Flips(g, acts) - 1, Band(g))
    decreases |acts|
  {
    hide Gap, Band, Do, Valid;
    CapacityPositive(g);
    var h := Do(g, acts[0]);
    if acts[0].Check? {
      FlipGap(g);
      CheckSame(g);
      if h.throttled == g.throttled || Flips(h, acts[1..]) >= 1 {
        TrafficFrom(h, acts[1..]);
      }
    } else {
      TrafficGap(g, acts[0]);
      TrafficFrom(h, acts[1..]);
    }
  }

  lemma CapacityPositive(g: Gauge)
    requires Valid(g)
    ensures g.capacity > 0
  {
  }

  lemma CheckSame(g: Gauge)
    requires Valid(g)
    ensures Valid(Do(g, Check)) && Band(Do(g, Check)) == Band(g) && Do(g, Check).capacity > 0
  {
  }

  /**
   * Over any run, n flips of the monitor need at least (n - 1) times (upper - lower) times capacity
   * pushes and pops: the monitor cannot flap.
   */
  lemma FlipsNeedTraffic(g: Gauge, acts: seq<Act>)
    requires Valid(g) && Flips(g, acts) >= 1
    ensures Traffic(acts) as real >= (Flips(g, acts) - 1) as real * ((g.upper - g.lower) * g.capacity as real)
  {
    hide Flips, Traffic, Bands;
    TrafficFrom(g, acts);
    BandsMultiply(Flips(g, acts) - 1, Band(g));
  }
}
