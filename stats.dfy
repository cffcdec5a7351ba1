/**
 * The system-status widget: four simulated metrics set from random draws on
 * mount, then nudged by a random delta and clamped every three seconds, and a
 * health badge computed from three of them.
 */
module Stats {
  import opened Draw

  /** An inclusive range `[lo, hi]`. */
  datatype Bounds = Bounds(lo: int, hi: int)

  const CpuBounds: Bounds := Bounds(10, 95)
  const MemoryBounds: Bounds := Bounds(20, 90)
  const NetworkBounds: Bounds := Bounds(10, 200)
  const PerformanceBounds: Bounds := Bounds(70, 100)

  /** Milliseconds between two ticks. */
  const TickInterval: nat := 3000

  /** `Math.min(Math.max(v, lo), hi)`. */
  function Clamp(v: int, b: Bounds): (r: int)
    requires b.lo <= b.hi
    ensures b.lo <= r <= b.hi
    ensures b.lo <= v <= b.hi ==> r == v
    ensures v < b.lo ==> r == b.lo
    ensures v > b.hi ==> r == b.hi
  {
    if v < b.lo then b.lo else if v > b.hi then b.hi else v
  }

  /** `Math.floor(Math.random() * span) - shift`: a delta in `[-shift, span - shift)`. */
  function Delta(r: Unit, span: nat, shift: int): (d: int)
    requires span > 0
    ensures -shift <= d < span - shift
  {
    Below(r, span) - shift
  }

  /** `Math.floor(Math.random() * span) + base`: a start value in `[base, base + span)`. */
  function Start(r: Unit, span: nat, base: int): (v: int)
    requires span > 0
    ensures base <= v < base + span
  {
    Below(r, span) + base
  }

  function Abs(x: int): nat
  {
    if x < 0 then -x else x
  }

  /** From a value in range, a clamped tick moves it by at most the size of its delta, in its direction. */
  lemma ClampMovesLittle(v: int, d: int, b: Bounds)
    requires b.lo <= v <= b.hi
    ensures Abs(Clamp(v + d, b) - v) <= Abs(d)
    ensures d >= 0 ==> v <= Clamp(v + d, b)
    ensures d <= 0 ==> Clamp(v + d, b) <= v
  {
  }

  /** The four draws of one initialisation or one tick, one per metric. */
  datatype StatDraws = StatDraws(rcpu: Unit, rmemory: Unit, rnetwork: Unit, rperformance: Unit)

  datatype Health = Optimal | Nominal | Degraded | Critical

  /** The badge text: each health level has its own upper-case word. */
  function Label(h: Health): (s: string)
    ensures s == "OPTIMAL" <==> h == Optimal
    ensures s == "NOMINAL" <==> h == Nominal
    ensures s == "DEGRADED" <==> h == Degraded
    ensures s == "CRITICAL" <==> h == Critical
  {
    match h
    case Optimal => "OPTIMAL"
    case Nominal => "NOMINAL"
    case Degraded => "DEGRADED"
    case Critical => "CRITICAL"
  }

  /** The badge colour: each health level has its own colour. */
  function HealthColor(h: Health): (c: string)
    ensures c == "green" <==> h == Optimal
    ensures c == "blue" <==> h == Nominal
    ensures c == "yellow" <==> h == Degraded
    ensures c == "pink" <==> h == Critical
  {
    match h
    case Optimal => "green"
    case Nominal => "blue"
    case Degraded => "yellow"
    case Critical => "pink"
  }

  /**
   * `getHealthStatus`: thresholds on the mean of CPU, memory and performance
   * (the network speed plays no part), stated here on their integer sum.
   */
  function HealthStatus(cpu: int, memory: int, performance: int): (h: Health)
    ensures h == Optimal <==> cpu + memory + performance > 225
    ensures h == Nominal <==> 150 < cpu + memory + performance <= 225
    ensures h == Degraded <==> 90 < cpu + memory + performance <= 150
    ensures h == Critical <==> cpu + memory + performance <= 90
  {
    var avgScore := (cpu + memory + performance) as real / 3.0;
    if avgScore > 75.0 then Optimal
    else if avgScore > 50.0 then Nominal
    else if avgScore > 30.0 then Degraded
    else Critical
  }

  /** Health is monotone: raising a metric never lowers the badge. */
  function Rank(h: Health): nat
  {
    match h
    case Critical => 0
    case Degraded => 1
    case Nominal => 2
    case Optimal => 3
  }

  lemma HealthMonotone(c: int, m: int, p: int, c': int, m': int, p': int)
    requires c <= c' && m <= m' && p <= p'
    ensures Rank(HealthStatus(c, m, p)) <= Rank(HealthStatus(c', m', p'))
  {
  }

  /** A bar colour. */
  datatype Usage = UsageGreen | UsageYellow | UsagePink

  /** The CPU and memory colour: pink above 80, yellow above 60, otherwise green. */
  function UsageColor(v: int): (u: Usage)
    ensures u == UsagePink <==> v > 80
    ensures u == UsageYellow <==> 60 < v <= 80
    ensures u == UsageGreen <==> v <= 60
  {
    if v > 80 then UsagePink else if v > 60 then UsageYellow else UsageGreen
  }

  /** The network bar width in percent: `Math.min(networkSpeed / 2, 100)`. */
  function NetworkWidth(speed: int): (w: real)
    ensures w <= 100.0
    ensures NetworkBounds.lo <= speed <= NetworkBounds.hi ==> 5.0 <= w
    ensures speed >= 200 ==> w == 100.0
  {
    var half := speed as real / 2.0;
    if half < 100.0 then half else 100.0
  }

  /** The four metrics' state. */
  class SystemStats {
    var cpuUsage: int
    var memoryUsage: int
    var networkSpeed: int
    var performanceScore: int

    /** Every metric inside its clamp range. */
    ghost predicate InRange()
      reads this
    {
      CpuBounds.lo <= cpuUsage <= CpuBounds.hi &&
      MemoryBounds.lo <= memoryUsage <= MemoryBounds.hi &&
      NetworkBounds.lo <= networkSpeed <= NetworkBounds.hi &&
      PerformanceBounds.lo <= performanceScore <= PerformanceBounds.hi
    }

    /** The badge for the current metrics. */
    function Status(): Health
      reads this
    {
      HealthStatus(cpuUsage, memoryUsage, performanceScore)
    }

    /** The first render: every metric is 0. */
    constructor ()
      ensures cpuUsage == 0 && memoryUsage == 0 && networkSpeed == 0 && performanceScore == 0
      ensures Status() == Critical
    {
      cpuUsage := 0;
      memoryUsage := 0;
      networkSpeed := 0;
      performanceScore := 0;
    }

    /** The mount effect's initial values. */
    method Initialize(d: StatDraws)
      modifies this
      ensures cpuUsage == Start(d.rcpu, 30, 20) && memoryUsage == Start(d.rmemory, 40, 30)
      ensures networkSpeed == Start(d.rnetwork, 100, 50) && performanceScore == Start(d.rperformance, 20, 80)
      ensures 20 <= cpuUsage <= 49 && 30 <= memoryUsage <= 69
      ensures 50 <= networkSpeed <= 149 && 80 <= performanceScore <= 99
      ensures InRange()
      ensures Status() == Nominal || Status() == Degraded
    {
      cpuUsage := Start(d.rcpu, 30, 20);
      memoryUsage := Start(d.rmemory, 40, 30);
      networkSpeed := Start(d.rnetwork, 100, 50);
      performanceScore := Start(d.rperformance, 20, 80);
    }

    /** One interval tick: each metric moves by its delta and is clamped. */
    method Tick(d: StatDraws)
      modifies this
      ensures cpuUsage == Clamp(old(cpuUsage) + Delta(d.rcpu, 10, 5), CpuBounds)
      ensures memoryUsage == Clamp(old(memoryUsage) + Delta(d.rmemory, 8, 4), MemoryBounds)
      ensures networkSpeed == Clamp(old(networkSpeed) + Delta(d.rnetwork, 20, 10), NetworkBounds)
      ensures performanceScore == Clamp(old(performanceScore) + Delta(d.rperformance, 6, 3), PerformanceBounds)
      ensures InRange()
      ensures Status() != Critical
    {
      cpuUsage := Clamp(cpuUsage + Delta(d.rcpu, 10, 5), CpuBounds);
      memoryUsage := Clamp(memoryUsage + Delta(d.rmemory, 8, 4), MemoryBounds);
      networkSpeed := Clamp(networkSpeed + Delta(d.rnetwork, 20, 10), NetworkBounds);
      performanceScore := Clamp(performanceScore + Delta(d.rperformance, 6, 3), PerformanceBounds);
    }
  }

  /** Within the clamp ranges the mean is at least 100/3, so the badge is never CRITICAL. */
  lemma InRangeNeverCritical(cpu: int, memory: int, performance: int)
    requires CpuBounds.lo <= cpu && MemoryBounds.lo <= memory && PerformanceBounds.lo <= performance
    ensures HealthStatus(cpu, memory, performance) != Critical
  {
  }
}
