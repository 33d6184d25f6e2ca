/** The vocabulary shared by every measurement source: which metric is
    asked for, where a CPU-usage number came from, the GPU aggregate, and
    the host's cgroup version. */
module Stats {
  import opened Numbers

  datatype ResourceType = NumCpus | CpuUsage | MemoryUsageKb | MemoryTotalKb

  /** A CPU-usage reading tagged with its provenance. The cgroup values are
      already in "busy cores" (1.5 = one and a half cores); the proc value
      is a fraction of all cores and still has to be scaled by the core
      count. */
  datatype CpuUsageValue =
    | FromCgroupV2(usage: real)
    | FromCgroupV1(usage: real)
    | FromProc(usage: real)

  /** Aggregate over all GPUs: count, summed utilisation (0..N), summed
      used and total memory in KB. */
  datatype GpuStats = GpuStats(numGpus: nat, gpuUsage: real, memoryUsageKb: nat, memoryTotalKb: nat)

  /** `V1AndV2` is the hybrid layout; detection never produces it. */
  datatype CgroupVersion = V1 | V2 | V1AndV2

  /** `CgroupVersion::has_v1` */
  predicate HasV1(v: CgroupVersion) {
    match v
    case V1 | V1AndV2 => true
    case V2 => false
  }

  /** `CgroupVersion::has_v2` */
  predicate HasV2(v: CgroupVersion) {
    match v
    case V2 | V1AndV2 => true
    case V1 => false
  }

  /** Every version has at least one hierarchy, exactly the hybrid has both,
      and each pure version excludes the other. */
  lemma VersionHierarchies(v: CgroupVersion)
    ensures HasV1(v) || HasV2(v)
    ensures HasV1(v) && HasV2(v) <==> v == V1AndV2
    ensures HasV1(v) <==> v != V2
    ensures HasV2(v) <==> v != V1
  {
  }

  /** How fast a cumulative counter read twice advanced per unit of
      elapsed time, where a counter that went backwards (a reset) counts
      as no progress: the saturating delta over the elapsed time. */
  function CounterRate(initial: nat, current: nat, elapsed: nat): (r: real)
    requires elapsed > 0
    ensures r >= 0.0
    ensures current <= initial ==> r == 0.0
    ensures initial <= current ==> r * (elapsed as real) == (current - initial) as real
  {
    SaturatingSub(current, initial) as real / elapsed as real
  }

  /** An `f64` as far as the agent's arithmetic needs one: a finite value,
      or the infinity or NaN that a division by zero yields (the two are
      not told apart). Rounding is not modelled. */
  datatype F64 = Finite(value: real) | NonFinite

  /** `a / b` on `f64`: non-finite exactly when the divisor is zero. */
  function Divide(a: real, b: real): (r: F64)
    ensures r.Finite? <==> b != 0.0
    ensures r.Finite? ==> r.value * b == a
  {
    if b == 0.0 then NonFinite else Finite(a / b)
  }

  /** `x * k` for a finite factor `k`: a non-finite value stays non-finite. */
  function Times(x: F64, k: real): (r: F64)
    ensures r.Finite? <==> x.Finite?
    ensures r.Finite? ==> r.value == x.value * k
  {
    match x
    case Finite(v) => Finite(v * k)
    case NonFinite => NonFinite
  }
}
