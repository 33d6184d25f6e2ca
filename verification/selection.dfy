/** Source selection for each metric: the cgroup v2 source when the host
    has a v2 hierarchy and a v2 mount point was found, then the cgroup v1
    source when it has a v1 hierarchy and v1 mount points were found, then
    `/proc`. The first source that answers wins; a metric is missing only
    when every source consulted failed. */
module Selection {
  import opened Results
  import opened Stats
  import opened Files
  import CgroupV1
  import CgroupV1CpuUsage
  import CgroupV2
  import ProcStat
  import ProcMeminfo

  /** The v2 source is consulted. */
  predicate TriesV2(version: Option<CgroupVersion>, v2Mount: Option<string>) {
    version.Some? && HasV2(version.value) && v2Mount.Some?
  }

  /** The v1 source is consulted (if v2 did not answer). */
  predicate TriesV1(version: Option<CgroupVersion>, v1Mounts: Option<CgroupV1.CgroupV1MountPoints>) {
    version.Some? && HasV1(version.value) && v1Mounts.Some?
  }

  /** The shape shared by `get_num_cpus`, `get_cpu_usage`,
      `get_memory_usage_kb` and `get_memory_total_kb`: each source is a
      reading taken at its mount point; the proc reading is always there. */
  function Select<T>(version: Option<CgroupVersion>, v2Mount: Option<string>, v1Mounts: Option<CgroupV1.CgroupV1MountPoints>,
                     fromV2: string -> Result<T>, fromV1: CgroupV1.CgroupV1MountPoints -> Result<T>, fromProc: Result<T>): (r: Option<T>)
    ensures r.None? <==> (!TriesV2(version, v2Mount) || fromV2(v2Mount.value).Err?)
                         && (!TriesV1(version, v1Mounts) || fromV1(v1Mounts.value).Err?)
                         && fromProc.Err?
    ensures TriesV2(version, v2Mount) && fromV2(v2Mount.value).Ok? ==> r == Some(fromV2(v2Mount.value).value)
    ensures r.Some? ==> (TriesV2(version, v2Mount) && fromV2(v2Mount.value) == Ok(r.value))
                        || (TriesV1(version, v1Mounts) && fromV1(v1Mounts.value) == Ok(r.value))
                        || fromProc == Ok(r.value)
  {
    if TriesV2(version, v2Mount) && fromV2(v2Mount.value).Ok? then Some(fromV2(v2Mount.value).value)
    else if TriesV1(version, v1Mounts) && fromV1(v1Mounts.value).Ok? then Some(fromV1(v1Mounts.value).value)
    else fromProc.ToOption()
  }

  /** The answer of a source that is consulted, or nothing. */
  function Attempt<M, T>(tried: bool, mount: Option<M>, read: M -> Result<T>): Option<T> {
    if tried && mount.Some? then read(mount.value).ToOption() else None
  }

  /** Selection is "the first source in order v2, v1, proc that answers". */
  lemma SelectIsFirstAnswer<T>(version: Option<CgroupVersion>, v2Mount: Option<string>, v1Mounts: Option<CgroupV1.CgroupV1MountPoints>,
                               fromV2: string -> Result<T>, fromV1: CgroupV1.CgroupV1MountPoints -> Result<T>, fromProc: Result<T>)
    ensures Select(version, v2Mount, v1Mounts, fromV2, fromV1, fromProc)
            == FirstSome([Attempt(TriesV2(version, v2Mount), v2Mount, fromV2),
                          Attempt(TriesV1(version, v1Mounts), v1Mounts, fromV1),
                          fromProc.ToOption()], (o: Option<T>) => o)
  {
    var xs := [Attempt(TriesV2(version, v2Mount), v2Mount, fromV2),
               Attempt(TriesV1(version, v1Mounts), v1Mounts, fromV1),
               fromProc.ToOption()];
    var id := (o: Option<T>) => o;
    if xs[0].Some? {
      FirstSomeAt(xs, id, 0);
    } else if xs[1].Some? {
      FirstSomeAt(xs, id, 1);
    } else if xs[2].Some? {
      FirstSomeAt(xs, id, 2);
    }
  }

  /** Without a known cgroup version both cgroup sources are skipped. */
  lemma UnknownVersionUsesProc<T>(v2Mount: Option<string>, v1Mounts: Option<CgroupV1.CgroupV1MountPoints>,
                                  fromV2: string -> Result<T>, fromV1: CgroupV1.CgroupV1MountPoints -> Result<T>, fromProc: Result<T>)
    ensures Select(None, v2Mount, v1Mounts, fromV2, fromV1, fromProc) == fromProc.ToOption()
  {
  }

  /** On a pure v1 host the v2 source and its mount point play no part. */
  lemma PureV1IgnoresV2<T>(v2Mount: Option<string>, otherMount: Option<string>, v1Mounts: Option<CgroupV1.CgroupV1MountPoints>,
                           fromV2: string -> Result<T>, otherV2: string -> Result<T>,
                           fromV1: CgroupV1.CgroupV1MountPoints -> Result<T>, fromProc: Result<T>)
    ensures Select(Some(V1), v2Mount, v1Mounts, fromV2, fromV1, fromProc)
            == Select(Some(V1), otherMount, v1Mounts, otherV2, fromV1, fromProc)
  {
  }

  /** On a pure v2 host the v1 source and its mount points play no part. */
  lemma PureV2IgnoresV1<T>(v2Mount: Option<string>, v1Mounts: Option<CgroupV1.CgroupV1MountPoints>, otherMounts: Option<CgroupV1.CgroupV1MountPoints>,
                           fromV2: string -> Result<T>, fromV1: CgroupV1.CgroupV1MountPoints -> Result<T>,
                           otherV1: CgroupV1.CgroupV1MountPoints -> Result<T>, fromProc: Result<T>)
    ensures Select(Some(V2), v2Mount, v1Mounts, fromV2, fromV1, fromProc)
            == Select(Some(V2), v2Mount, otherMounts, fromV2, otherV1, fromProc)
  {
  }

  /** Once v2 answers, neither later source is looked at. */
  lemma V2AnswerShadowsLaterSources<T>(version: Option<CgroupVersion>, v2Mount: Option<string>,
                                       v1Mounts: Option<CgroupV1.CgroupV1MountPoints>, otherMounts: Option<CgroupV1.CgroupV1MountPoints>,
                                       fromV2: string -> Result<T>, fromV1: CgroupV1.CgroupV1MountPoints -> Result<T>,
                                       otherV1: CgroupV1.CgroupV1MountPoints -> Result<T>, fromProc: Result<T>, otherProc: Result<T>)
    requires TriesV2(version, v2Mount) && fromV2(v2Mount.value).Ok?
    ensures Select(version, v2Mount, v1Mounts, fromV2, fromV1, fromProc)
            == Select(version, v2Mount, otherMounts, fromV2, otherV1, otherProc)
  {
  }

  // ---------------------------------------------------- the four metrics

  /** `get_num_cpus`. The v1 reading is a parameter: the v1 core count is
      not implemented in the source. `procStat` is `/proc/stat`'s lines. */
  function GetNumCpus(version: Option<CgroupVersion>, v2Mount: Option<string>, v1Mounts: Option<CgroupV1.CgroupV1MountPoints>,
                      fs: FileSystem, fromV1: CgroupV1.CgroupV1MountPoints -> Result<F64>, procStat: Result<seq<string>>): (r: Option<F64>)
    ensures version.None? ==> r == ProcStat.GetNumCpus(procStat).ToOption()
    ensures procStat.Ok? ==> r.Some?
  {
    Select(version, v2Mount, v1Mounts, (root: string) => CgroupV2.ReadNumCpus(root, fs), fromV1, ProcStat.GetNumCpus(procStat))
  }

  /** `get_cpu_usage`: each cgroup reading is two snapshots of the
      filesystem and the wall-clock time between them, in microseconds
      for v2 and in nanoseconds for v1; the proc reading is two snapshots
      of `/proc/stat`'s lines. */
  function GetCpuUsage(version: Option<CgroupVersion>, v2Mount: Option<string>, v1Mounts: Option<CgroupV1.CgroupV1MountPoints>,
                       before: FileSystem, after: FileSystem, elapsedUs: nat, elapsedNs: nat,
                       procInitial: Result<seq<string>>, procCurrent: Result<seq<string>>): (r: Option<CpuUsageValue>)
    ensures version.None? ==> r == ProcStat.GetCpuUsage(procInitial, procCurrent).ToOption()
    ensures r.Some? && r.value.FromCgroupV2? ==> TriesV2(version, v2Mount)
    ensures r.Some? && r.value.FromCgroupV1? ==> TriesV1(version, v1Mounts)
    ensures r.Some? && r.value.FromCgroupV1? ==> r == V1CpuUsage(v1Mounts.value, before, after, elapsedNs).ToOption()
    ensures version == Some(V2) && v2Mount.Some? && r.Some? ==> r.value.FromCgroupV2? || r.value.FromProc?
    ensures version == Some(V1) && r.Some? ==> r.value.FromCgroupV1? || r.value.FromProc?
  {
    Select(version, v2Mount, v1Mounts,
           (root: string) => CgroupV2.ReadCpuUsage(root, before, after, elapsedUs),
           (mp: CgroupV1.CgroupV1MountPoints) => V1CpuUsage(mp, before, after, elapsedNs),
           ProcStat.GetCpuUsage(procInitial, procCurrent))
  }

  /** `CgroupV1Source::get_cpu_usage` over `get_cgroup_v1_cpuacct_usage`. */
  function V1CpuUsage(mp: CgroupV1.CgroupV1MountPoints, before: FileSystem, after: FileSystem, elapsedNs: nat): (r: Result<CpuUsageValue>)
    ensures r.Ok? ==> r.value.FromCgroupV1?
  {
    CgroupV1CpuUsage.GetCpuUsage(CgroupV1.ReadFile(mp, before, CgroupV1.CpuacctUsage),
                                 CgroupV1.ReadFile(mp, after, CgroupV1.CpuacctUsage), elapsedNs)
  }

  /** `get_memory_usage_kb`: the v1 reading is a parameter (not
      implemented in the source); `meminfo` is `/proc/meminfo`'s lines. */
  function GetMemoryUsageKb(version: Option<CgroupVersion>, v2Mount: Option<string>, v1Mounts: Option<CgroupV1.CgroupV1MountPoints>,
                            fs: FileSystem, fromV1: CgroupV1.CgroupV1MountPoints -> Result<nat>, meminfo: Result<seq<string>>): (r: Option<nat>)
    ensures meminfo.Ok? ==> r.Some?
    ensures version.None? && meminfo.Ok? ==> r == Some(ProcMeminfo.GetMemoryUsageAndTotalKb(meminfo).value.usageKb)
  {
    var fromProc := match ProcMeminfo.GetMemoryUsageAndTotalKb(meminfo)
                    case Ok(m) => Ok(m.usageKb)
                    case Err(e) => Err(e);
    Select(version, v2Mount, v1Mounts, (root: string) => CgroupV2.ReadMemoryUsageKb(root, fs), fromV1, fromProc)
  }

  /** `get_memory_total_kb`, likewise. */
  function GetMemoryTotalKb(version: Option<CgroupVersion>, v2Mount: Option<string>, v1Mounts: Option<CgroupV1.CgroupV1MountPoints>,
                            fs: FileSystem, fromV1: CgroupV1.CgroupV1MountPoints -> Result<nat>, meminfo: Result<seq<string>>): (r: Option<nat>)
    ensures meminfo.Ok? ==> r.Some?
    ensures version.None? && meminfo.Ok? ==> r == Some(ProcMeminfo.GetMemoryUsageAndTotalKb(meminfo).value.totalKb)
  {
    var fromProc := match ProcMeminfo.GetMemoryUsageAndTotalKb(meminfo)
                    case Ok(m) => Ok(m.totalKb)
                    case Err(e) => Err(e);
    Select(version, v2Mount, v1Mounts, (root: string) => CgroupV2.ReadMemoryTotalKb(root, fs), fromV1, fromProc)
  }

  /** An unlimited `memory.max` on a v2 host falls through to the host-wide
      total from `/proc/meminfo`. */
  lemma UnlimitedMemoryFallsBackToHost(root: string, fs: FileSystem, fromV1: CgroupV1.CgroupV1MountPoints -> Result<nat>,
                                       meminfo: seq<string>)
    requires CgroupV2.ReadMemoryTotalKb(root, fs).Err?
    ensures GetMemoryTotalKb(Some(V2), Some(root), None, fs, fromV1, Ok(meminfo))
            == Some(ProcMeminfo.GetMemoryUsageAndTotalKb(Ok(meminfo)).value.totalKb)
  {
  }
}
