/** One pass of the agent's reporting loop: the defaults it substitutes for
    metrics no source could provide, the scaling of a CPU-usage reading by
    its provenance, and the megabyte and percentage figures it logs. */
module Report {
  import opened Results
  import opened Stats

  const KB_PER_MB: nat := 1024

  /** The GPU part of the log line, present only when `nvidia-smi` answered. */
  datatype GpuReport = GpuReport(gpuUsage: real, numGpus: nat, memoryUsageMb: nat, memoryTotalMb: nat)

  /** The figures of one log line. */
  datatype Report = Report(
    normalizedCpuUsage: F64,
    numCpus: F64,
    cpuPercent: F64,
    memoryUsageMb: nat,
    memoryTotalMb: nat,
    memoryPercent: F64,
    gpu: Option<GpuReport>)

  /** Integer division of a KB figure into whole MB. */
  function KbToMb(kb: nat): (mb: nat)
    ensures mb * KB_PER_MB <= kb < (mb + 1) * KB_PER_MB
  {
    kb / KB_PER_MB
  }

  /** `usage * 100` on `f64`. */
  function Percent(x: F64): F64 {
    Times(x, 100.0)
  }

  /** `usage / total * 100` on `f64`: finite exactly when the total is
      non-zero, and then the share of the total, in percent. */
  function MemoryPercent(usedKb: nat, totalKb: nat): (r: F64)
    ensures r.Finite? <==> totalKb > 0
    ensures r.Finite? ==> r.value * (totalKb as real) == (usedKb as real) * 100.0
  {
    var share := Divide(usedKb as real, totalKb as real);
    if share.Finite? then
      ScaleByHundred(share.value, usedKb as real, totalKb as real);
      Percent(share)
    else Percent(share)
  }

  /** The figures derived from the four metrics and the GPU aggregate, each
      `None` when no source answered. The match in the source has no arm
      for a cgroup v1 reading, so such a reading is excluded here. */
  function MakeReport(numCpus: Option<F64>, cpuUsage: Option<CpuUsageValue>, memoryUsageKb: Option<nat>,
                      memoryTotalKb: Option<nat>, gpu: Option<GpuStats>): (r: Report)
    requires cpuUsage.None? || !cpuUsage.value.FromCgroupV1?
    ensures r.numCpus == numCpus.GetOr(Finite(0.0))
    // a cgroup v2 reading is already in cores and is passed through
    ensures cpuUsage.Some? && cpuUsage.value.FromCgroupV2? ==> r.normalizedCpuUsage == Finite(cpuUsage.value.usage)
    // a proc reading is a share of all cores and is scaled by the core count
    ensures cpuUsage.Some? && cpuUsage.value.FromProc? && r.numCpus.Finite? ==>
              r.normalizedCpuUsage == Finite(cpuUsage.value.usage * r.numCpus.value)
    // no core count: a proc reading normalises to no usage at all
    ensures numCpus.None? && cpuUsage.Some? && cpuUsage.value.FromProc? ==> r.normalizedCpuUsage == Finite(0.0)
    // no CPU reading: idle, as if cgroup v2 had reported zero
    ensures cpuUsage.None? ==> r.normalizedCpuUsage == Finite(0.0)
    ensures cpuUsage.None? && numCpus.None? ==> r.cpuPercent.NonFinite?
    // a proc reading is already a share of all cores: its percent is not divided by them
    ensures cpuUsage.Some? && cpuUsage.value.FromProc? ==> r.cpuPercent == Finite(cpuUsage.value.usage * 100.0)
    ensures r.memoryUsageMb * KB_PER_MB <= memoryUsageKb.GetOr(0) < (r.memoryUsageMb + 1) * KB_PER_MB
    ensures r.memoryTotalMb * KB_PER_MB <= memoryTotalKb.GetOr(0) < (r.memoryTotalMb + 1) * KB_PER_MB
    ensures r.memoryPercent.Finite? <==> memoryTotalKb.GetOr(0) > 0
    ensures r.memoryPercent.Finite? ==>
              r.memoryPercent.value * (memoryTotalKb.value as real) == (memoryUsageKb.GetOr(0) as real) * 100.0
    ensures r.gpu.Some? <==> gpu.Some?
    ensures gpu.Some? ==> r.gpu.value.numGpus == gpu.value.numGpus && r.gpu.value.gpuUsage == gpu.value.gpuUsage
    ensures gpu.Some? ==>
              r.gpu.value.memoryUsageMb * KB_PER_MB <= gpu.value.memoryUsageKb < (r.gpu.value.memoryUsageMb + 1) * KB_PER_MB
    ensures gpu.Some? ==>
              r.gpu.value.memoryTotalMb * KB_PER_MB <= gpu.value.memoryTotalKb < (r.gpu.value.memoryTotalMb + 1) * KB_PER_MB
  {
    var cores := numCpus.GetOr(Finite(0.0));
    var usage := cpuUsage.GetOr(FromCgroupV2(0.0));
    var normalized := match usage
      case FromCgroupV2(u) => Finite(u)
      case FromProc(p) => Times(cores, p);
    var usedKb := memoryUsageKb.GetOr(0);
    var totalKb := memoryTotalKb.GetOr(0);
    Report(normalized, cores, CpuPercent(usage, cores), KbToMb(usedKb), KbToMb(totalKb),
           MemoryPercent(usedKb, totalKb),
           match gpu
           case None => None
           case Some(g) => Some(GpuLine(g)))
  }

  /** The GPU figures of the log line: usage and count as reported, the
      memory figures floored to whole MB. */
  function GpuLine(g: GpuStats): (r: GpuReport)
    ensures r.gpuUsage == g.gpuUsage && r.numGpus == g.numGpus
    ensures r.memoryUsageMb * KB_PER_MB <= g.memoryUsageKb < (r.memoryUsageMb + 1) * KB_PER_MB
    ensures r.memoryTotalMb * KB_PER_MB <= g.memoryTotalKb < (r.memoryTotalMb + 1) * KB_PER_MB
  {
    GpuReport(g.gpuUsage, g.numGpus, KbToMb(g.memoryUsageKb), KbToMb(g.memoryTotalKb))
  }

  /** The logged CPU percentage: a proc reading is a share of all cores and
      is scaled to percent as it is; a cgroup v2 reading is in cores and is
      taken as a percent of the core count, which `f64` division leaves
      non-finite when that count is zero or itself non-finite. */
  function CpuPercent(usage: CpuUsageValue, cores: F64): (r: F64)
    requires !usage.FromCgroupV1?
    ensures usage.FromProc? ==> r == Finite(usage.usage * 100.0)
    ensures usage.FromCgroupV2? ==> (r.Finite? <==> cores.Finite? && cores.value != 0.0)
    ensures usage.FromCgroupV2? && r.Finite? ==> r.value * cores.value == usage.usage * 100.0
  {
    match usage
    case FromCgroupV2(u) =>
      if cores.Finite? then
        var share := Divide(u, cores.value);
        if share.Finite? then
          ScaleByHundred(share.value, u, cores.value);
          Percent(share)
        else Percent(share)
      else NonFinite
    case FromProc(p) => Finite(p * 100.0)
  }

  lemma ScaleByHundred(x: real, y: real, k: real)
    requires x * k == y
    ensures (x * 100.0) * k == y * 100.0
  {
  }

  /** Whatever the provenance, the logged percentage and the normalised
      usage agree: percent × cores = 100 × busy cores, once the core count
      is a finite nonzero number. */
  lemma PercentMatchesNormalizedUsage(numCpus: Option<F64>, cpuUsage: Option<CpuUsageValue>, memoryUsageKb: Option<nat>,
                                      memoryTotalKb: Option<nat>, gpu: Option<GpuStats>)
    requires cpuUsage.None? || !cpuUsage.value.FromCgroupV1?
    requires numCpus.Some? && numCpus.value.Finite? && numCpus.value.value != 0.0
    ensures MakeReport(numCpus, cpuUsage, memoryUsageKb, memoryTotalKb, gpu).cpuPercent.Finite?
    ensures MakeReport(numCpus, cpuUsage, memoryUsageKb, memoryTotalKb, gpu).cpuPercent.value * numCpus.value.value
            == MakeReport(numCpus, cpuUsage, memoryUsageKb, memoryTotalKb, gpu).normalizedCpuUsage.value * 100.0
  {
    var n := numCpus.value.value;
    var r := MakeReport(numCpus, cpuUsage, memoryUsageKb, memoryTotalKb, gpu);
    match cpuUsage.GetOr(FromCgroupV2(0.0))
    case FromCgroupV2(u) =>
      var d := Divide(u, n);
      assert r.cpuPercent == Finite(d.value * 100.0);
      assert r.normalizedCpuUsage == Finite(u);
      ScaleByHundred(d.value, u, n);
    case FromProc(p) =>
      assert r.cpuPercent == Finite(p * 100.0);
      assert r.normalizedCpuUsage == Finite(p * n);
      ScaleByHundred(p, p * n, n);
  }

  /** A proc reading of "all cores busy" on a four-core host is four busy
      cores and 100 percent. */
  lemma FullyBusyFourCores()
    ensures MakeReport(Some(Finite(4.0)), Some(FromProc(1.0)), None, None, None).normalizedCpuUsage == Finite(4.0)
    ensures MakeReport(Some(Finite(4.0)), Some(FromProc(1.0)), None, None, None).cpuPercent == Finite(100.0)
  {
  }

  /** Two busy cores out of a v2 limit of four are 50 percent; memory in KB
      is floored to whole MB. */
  lemma HalfOfFourV2Cores()
    ensures MakeReport(Some(Finite(4.0)), Some(FromCgroupV2(2.0)), Some(2047), Some(4096), None)
            == Report(Finite(2.0), Finite(4.0), Finite(50.0), 1, 4, Finite(2047.0 / 4096.0 * 100.0), None)
  {
    var d := Divide(2.0, 4.0);
    assert d.value == 0.5;
    var m := Divide(2047.0, 4096.0);
    assert m.value == 2047.0 / 4096.0;
  }
}
