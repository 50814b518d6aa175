/**
 * The parts of the Docker API types that the tool reads. These types live in
 * the Docker Go library (`github.com/docker/docker/api/types`), where every
 * counter is an unsigned machine integer; the subset types below carry those
 * widths so that the arithmetic on them can be modelled exactly.
 */
module DockerTypes {

  /** 2^64, the modulus of Go `uint64` arithmetic. */
  const TwoTo64: int := 0x1_0000_0000_0000_0000

  const MinInt64: int := -0x8000_0000_0000_0000
  const MaxInt64: int := 0x7FFF_FFFF_FFFF_FFFF

  type uint64 = x: int | 0 <= x < 0x1_0000_0000_0000_0000
  type uint32 = x: int | 0 <= x < 0x1_0000_0000
  type byte = x: int | 0 <= x < 256

  /** Per-container CPU time counters, cumulative since container start. */
  datatype CPUUsage = CPUUsage(totalUsage: uint64, percpuUsage: seq<uint64>)

  datatype CPUStats = CPUStats(cpuUsage: CPUUsage, systemUsage: uint64, onlineCPUs: uint32)

  datatype MemoryStats = MemoryStats(
    usage: uint64,
    stats: map<string, uint64>,   // cgroup memory.stat entries, e.g. "cache"
    limit: uint64,
    privateWorkingSet: uint64)

  /**
   * One stats record as the daemon sends it: the current and the previous
   * CPU counters side by side. `read` and `preRead` are the two sample
   * instants (Go `time.Time`), given here in nanoseconds on one time line.
   */
  datatype Stats = Stats(
    read: int,
    preRead: int,
    numProcs: uint32,
    cpuStats: CPUStats,
    preCPUStats: CPUStats,
    memoryStats: MemoryStats)

  /** An entry of the container list: ID, names (each with a leading '/') and image. */
  datatype Container = Container(id: string, names: seq<string>, image: string)
}
