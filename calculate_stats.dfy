/**
 * Derived metrics of one Docker stats record: CPU percentage, memory usage,
 * memory limit and memory percentage. Each is a switch on the platform
 * string the daemon reports ("linux", "windows"); any other platform gives 0.
 *
 * Counters are Go `uint64`, so a subtraction whose right operand is larger
 * wraps modulo 2^64 (Sub64). Go `float64` is modelled by `real`: the
 * conversions from integer and the divisions are exact here.
 */
module CalculateStats {
  import opened DockerTypes

  /** Go `uint64` subtraction `a - b`. */
  function Sub64(a: uint64, b: uint64): (r: uint64)
    ensures b <= a ==> r == a - b
    ensures a < b ==> r == a - b + TwoTo64
  {
    (a - b) % TwoTo64
  }

  /** Go `uint64` multiplication. */
  function Mul64(a: uint64, b: uint64): (r: uint64)
    ensures a * b < TwoTo64 ==> r == a * b
    ensures (a * b - r) % TwoTo64 == 0
  {
    var p := a * b;
    assert 0 <= p;
    p % TwoTo64
  }

  /** Go conversion `uint64(d)` of an `int64` value: negative values wrap. */
  function Int64ToUint64(d: int): (r: uint64)
    requires MinInt64 <= d <= MaxInt64
    ensures 0 <= d ==> r == d
    ensures d < 0 ==> r == d + TwoTo64
  {
    d % TwoTo64
  }

  /** Go `time.Time.Sub`: the difference in nanoseconds, saturated to the `int64` range. */
  function Elapsed(v: Stats): (d: int)
    ensures MinInt64 <= d <= MaxInt64
    ensures MinInt64 <= v.read - v.preRead <= MaxInt64 ==> d == v.read - v.preRead
    ensures v.read - v.preRead > MaxInt64 ==> d == MaxInt64
    ensures v.read - v.preRead < MinInt64 ==> d == MinInt64
  {
    var diff := v.read - v.preRead;
    if diff > MaxInt64 then MaxInt64
    else if diff < MinInt64 then MinInt64
    else diff
  }

  /** Go `int64` division by 100, which truncates toward zero. */
  function Div100(d: int): (q: int)
    requires MinInt64 <= d <= MaxInt64
    ensures 0 <= d ==> 0 <= 100 * q <= d < 100 * q + 100
    ensures d < 0 ==> 100 * q - 100 < d <= 100 * q <= 0
  {
    if d >= 0 then d / 100 else -((-d) / 100)
  }

  /** Windows: the number of 100 ns intervals all processors could have used (calculate-stats.go:15, 18). */
  function PossibleIntervals(v: Stats): (r: uint64)
    ensures v.numProcs == 0 ==> r == 0
    ensures 0 <= Elapsed(v) < 100 ==> r == 0
    ensures 0 <= Elapsed(v) && Elapsed(v) / 100 * v.numProcs < TwoTo64 ==> r == Elapsed(v) / 100 * v.numProcs
  {
    var elapsed := Elapsed(v);
    Mul64(Int64ToUint64(Div100(elapsed)), v.numProcs)
  }

  /** Windows: the 100 ns intervals the container did use (calculate-stats.go:16). */
  function IntervalsUsed(v: Stats): uint64
  {
    Sub64(v.cpuStats.cpuUsage.totalUsage, v.preCPUStats.cpuUsage.totalUsage)
  }

  /** Linux: the CPU count the percentage is scaled by; the per-core array length when the daemon reports 0. */
  function LinuxOnlineCPUs(v: Stats): (n: nat)
    ensures v.cpuStats.onlineCPUs != 0 ==> n == v.cpuStats.onlineCPUs
    ensures v.cpuStats.onlineCPUs == 0 ==> n == |v.cpuStats.cpuUsage.percpuUsage|
    ensures n == 0 <==> v.cpuStats.onlineCPUs == 0 && |v.cpuStats.cpuUsage.percpuUsage| == 0
  {
    if v.cpuStats.onlineCPUs == 0 then |v.cpuStats.cpuUsage.percpuUsage|
    else v.cpuStats.onlineCPUs
  }

  function CPUDelta(v: Stats): uint64
  {
    Sub64(v.cpuStats.cpuUsage.totalUsage, v.preCPUStats.cpuUsage.totalUsage)
  }

  function SystemDelta(v: Stats): uint64
  {
    Sub64(v.cpuStats.systemUsage, v.preCPUStats.systemUsage)
  }

  function CalculateCPUPercentage(os: string, v: Stats): (r: real)
    ensures r >= 0.0
    ensures os != "linux" && os != "windows" ==> r == 0.0
  {
    if os == "windows" then
      var possIntervals := PossibleIntervals(v);
      var intervalsUsed := IntervalsUsed(v);
      if possIntervals > 0 then
        assert intervalsUsed as real / possIntervals as real >= 0.0;
        intervalsUsed as real / possIntervals as real * 100.0
      else 0.0
    else if os == "linux" then
      var cpuDelta := CPUDelta(v) as real;
      var systemDelta := SystemDelta(v) as real;
      var onlineCPUs := LinuxOnlineCPUs(v) as real;
      if systemDelta > 0.0 && cpuDelta > 0.0 then
        assert cpuDelta / systemDelta > 0.0;
        (cpuDelta / systemDelta) * onlineCPUs * 100.0
      else 0.0
    else 0.0
  }

  /** The "cache" entry of the cgroup memory statistics; Go reads a missing key as 0. */
  function Cache(v: Stats): (c: uint64)
    ensures "cache" in v.memoryStats.stats ==> c == v.memoryStats.stats["cache"]
    ensures "cache" !in v.memoryStats.stats ==> c == 0
  {
    if "cache" in v.memoryStats.stats then v.memoryStats.stats["cache"] else 0
  }

  function CalculateMemoryUsage(os: string, v: Stats): (r: real)
    ensures r >= 0.0
    ensures os == "linux" && Cache(v) <= v.memoryStats.usage ==>
              r == (v.memoryStats.usage - Cache(v)) as real
    ensures os == "linux" && "cache" !in v.memoryStats.stats ==> r == v.memoryStats.usage as real
    ensures os == "linux" && v.memoryStats.usage < Cache(v) ==>
              r == (v.memoryStats.usage - Cache(v) + TwoTo64) as real
    ensures os == "windows" ==> r == v.memoryStats.privateWorkingSet as real
    ensures os != "linux" && os != "windows" ==> r == 0.0
  {
    if os == "windows" then v.memoryStats.privateWorkingSet as real
    else if os == "linux" then Sub64(v.memoryStats.usage, Cache(v)) as real
    else 0.0
  }

  function CalculateMemoryLimit(os: string, v: Stats): (r: real)
    ensures r >= 0.0
    ensures os == "linux" ==> r == v.memoryStats.limit as real
    ensures os != "linux" ==> r == 0.0
  {
    if os == "linux" then v.memoryStats.limit as real else 0.0
  }

  function CalculateMemoryPercentage(os: string, v: Stats): (r: real)
    ensures r >= 0.0
    ensures os != "linux" ==> r == 0.0
    ensures os == "linux" && v.memoryStats.limit == 0 ==> r == 0.0
  {
    var memoryUsage := CalculateMemoryUsage(os, v);
    var memoryLimit := CalculateMemoryLimit(os, v);
    if memoryLimit != 0.0 then
      assert memoryUsage / memoryLimit >= 0.0;
      memoryUsage / memoryLimit * 100.0
    else 0.0
  }

  // ---------------------------------------------------------------------
  // Properties of the four metrics

  /**
   * A stream's first sample carries the zero time as PreRead, more than
   * MaxInt64 nanoseconds back: the elapsed time saturates, and the possible
   * intervals are its hundredth times the processor count, modulo 2^64.
   */
  lemma WindowsFirstSample(v: Stats)
    requires v.read - v.preRead > MaxInt64
    ensures Elapsed(v) == MaxInt64
    ensures Div100(Elapsed(v)) == 92_233_720_368_547_758
    ensures (92_233_720_368_547_758 * v.numProcs - PossibleIntervals(v)) % TwoTo64 == 0
    ensures v.numProcs == 1 ==>
              CalculateCPUPercentage("windows", v) == IntervalsUsed(v) as real / 92_233_720_368_547_758.0 * 100.0
  {
  }

  /** Any platform other than "linux" and "windows" yields 0 for every metric. */
  lemma UnknownPlatformIsZero(os: string, v: Stats)
    requires os != "linux" && os != "windows"
    ensures CalculateCPUPercentage(os, v) == 0.0
    ensures CalculateMemoryUsage(os, v) == 0.0
    ensures CalculateMemoryLimit(os, v) == 0.0
    ensures CalculateMemoryPercentage(os, v) == 0.0
  {
  }

  /**
   * Linux: the percentage is 0 exactly when the CPU counter or the system
   * counter did not move, or no CPU count is available; otherwise it is positive.
   */
  lemma LinuxCPUZeroIff(v: Stats)
    ensures CalculateCPUPercentage("linux", v) == 0.0 <==>
              v.cpuStats.cpuUsage.totalUsage == v.preCPUStats.cpuUsage.totalUsage
              || v.cpuStats.systemUsage == v.preCPUStats.systemUsage
              || LinuxOnlineCPUs(v) == 0
    ensures CalculateCPUPercentage("linux", v) != 0.0 ==> CalculateCPUPercentage("linux", v) > 0.0
  {
    var cpuDelta := CPUDelta(v) as real;
    var systemDelta := SystemDelta(v) as real;
    var n := LinuxOnlineCPUs(v) as real;
    if systemDelta > 0.0 && cpuDelta > 0.0 && n > 0.0 {
      assert cpuDelta / systemDelta > 0.0;
      assert (cpuDelta / systemDelta) * n > 0.0;
    }
  }

  /**
   * Linux, counters that advanced: the percentage is the share of system
   * CPU time the container used, scaled by the CPU count, times 100.
   */
  lemma LinuxCPUFormula(v: Stats)
    requires v.preCPUStats.cpuUsage.totalUsage < v.cpuStats.cpuUsage.totalUsage
    requires v.preCPUStats.systemUsage < v.cpuStats.systemUsage
    ensures CalculateCPUPercentage("linux", v) ==
              ((v.cpuStats.cpuUsage.totalUsage - v.preCPUStats.cpuUsage.totalUsage) as real
                / (v.cpuStats.systemUsage - v.preCPUStats.systemUsage) as real)
              * LinuxOnlineCPUs(v) as real * 100.0
  {
  }

  /**
   * Linux: a reported CPU count of 0 behaves exactly as if the daemon had
   * reported the length of the per-core array.
   */
  lemma LinuxOnlineCPUsFallback(v: Stats)
    requires v.cpuStats.onlineCPUs == 0
    requires |v.cpuStats.cpuUsage.percpuUsage| < 0x1_0000_0000
    ensures CalculateCPUPercentage("linux", v) ==
              CalculateCPUPercentage("linux",
                v.(cpuStats := v.cpuStats.(onlineCPUs := |v.cpuStats.cpuUsage.percpuUsage|)))
  {
  }

  /** Linux: no reported CPU count and an empty per-core array give 0, however far the counters moved. */
  lemma LinuxNoCPUsIsZero(v: Stats)
    requires v.cpuStats.onlineCPUs == 0 && |v.cpuStats.cpuUsage.percpuUsage| == 0
    ensures CalculateCPUPercentage("linux", v) == 0.0
  {
  }

  /**
   * Linux: a CPU counter that went backwards is not treated as "no usage":
   * the unsigned subtraction wraps to a large positive delta and the
   * percentage is positive.
   */
  lemma LinuxCounterWentBackwards(v: Stats)
    requires v.cpuStats.cpuUsage.totalUsage < v.preCPUStats.cpuUsage.totalUsage
    requires v.preCPUStats.systemUsage < v.cpuStats.systemUsage
    requires LinuxOnlineCPUs(v) > 0
    ensures CPUDelta(v) == v.cpuStats.cpuUsage.totalUsage - v.preCPUStats.cpuUsage.totalUsage + TwoTo64
    ensures CalculateCPUPercentage("linux", v) > 0.0
  {
    LinuxCPUZeroIff(v);
  }

  /** Windows: no processors, or less than 100 ns between the samples, give 0. */
  lemma WindowsCPUZero(v: Stats)
    requires v.numProcs == 0 || 0 <= v.read - v.preRead < 100
    ensures CalculateCPUPercentage("windows", v) == 0.0
  {
  }

  /**
   * Windows, a forward interval short enough not to overflow: the percentage
   * is the used intervals over the elapsed 100 ns intervals times the
   * processor count, times 100.
   */
  lemma WindowsCPUFormula(v: Stats, intervals: nat)
    requires 0 <= v.read - v.preRead <= MaxInt64
    requires intervals == (v.read - v.preRead) / 100
    requires 0 < intervals * v.numProcs < TwoTo64
    ensures PossibleIntervals(v) == intervals * v.numProcs
    ensures CalculateCPUPercentage("windows", v) ==
              IntervalsUsed(v) as real / (intervals * v.numProcs) as real * 100.0
  {
  }

  /** Windows reports no memory limit, so its memory percentage is always 0. */
  lemma WindowsMemoryPercentageZero(v: Stats)
    ensures CalculateMemoryLimit("windows", v) == 0.0
    ensures CalculateMemoryPercentage("windows", v) == 0.0
  {
  }

  /** The memory percentage is usage over limit, from the two sibling metrics, when the limit is not 0. */
  lemma MemoryPercentageFromSiblings(os: string, v: Stats)
    requires CalculateMemoryLimit(os, v) != 0.0
    ensures CalculateMemoryPercentage(os, v) ==
              CalculateMemoryUsage(os, v) / CalculateMemoryLimit(os, v) * 100.0
  {
  }

  lemma RatioAtMostOne(u: real, l: real)
    requires 0.0 <= u <= l && 0.0 < l
    ensures u / l <= 1.0
  {
    assert (u / l) * l == u;
  }

  /** Linux: usage within the limit gives a percentage between 0 and 100. */
  lemma LinuxMemoryPercentageBounded(v: Stats)
    requires Cache(v) <= v.memoryStats.usage
    requires 0 < v.memoryStats.limit
    requires v.memoryStats.usage - Cache(v) <= v.memoryStats.limit
    ensures 0.0 <= CalculateMemoryPercentage("linux", v) <= 100.0
  {
    var u := (v.memoryStats.usage - Cache(v)) as real;
    var l := v.memoryStats.limit as real;
    RatioAtMostOne(u, l);
  }

  // ---------------------------------------------------------------------
  // Worked examples

  /** A Linux sample in which the container used half the system CPU time on 4 CPUs: 200%. */
  lemma LinuxCPUExample(v: Stats)
    requires v.cpuStats.cpuUsage.totalUsage == 200 && v.preCPUStats.cpuUsage.totalUsage == 100
    requires v.cpuStats.systemUsage == 1200 && v.preCPUStats.systemUsage == 1000
    requires v.cpuStats.onlineCPUs == 4
    ensures CalculateCPUPercentage("linux", v) == 200.0
  {
    LinuxCPUFormula(v);
  }

  /** A Linux sample using 3 000 000 bytes, 1 000 000 of them cache, under a 10 000 000 byte limit. */
  lemma LinuxMemoryExample(v: Stats)
    requires v.memoryStats.usage == 3_000_000 && v.memoryStats.limit == 10_000_000
    requires "cache" in v.memoryStats.stats && v.memoryStats.stats["cache"] == 1_000_000
    ensures CalculateMemoryUsage("linux", v) == 2_000_000.0
    ensures CalculateMemoryPercentage("linux", v) == 20.0
  {
    MemoryPercentageFromSiblings("linux", v);
  }
}
