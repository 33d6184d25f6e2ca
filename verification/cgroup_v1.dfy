/** The cgroup v1 source: the per-controller mount points, the files the
    reader takes each metric from, the getters that fail with `NotFound`
    when a controller is not mounted, and the availability probe. */
module CgroupV1 {
  import opened Results
  import opened Stats
  import opened Files

  /** The v1 controllers the agent reads from. */
  datatype Controller = Cpu | CpuAcct | Memory

  /** Mount point of each controller; `None` means it is not mounted. */
  datatype CgroupV1MountPoints = CgroupV1MountPoints(cpu: Option<string>, cpuacct: Option<string>, memory: Option<string>) {

    function Get(c: Controller): Option<string> {
      match c
      case Cpu => cpu
      case CpuAcct => cpuacct
      case Memory => memory
    }

    function Set(c: Controller, path: string): (r: CgroupV1MountPoints)
      ensures r.Get(c) == Some(path)
      ensures forall d :: d != c ==> r.Get(d) == Get(d)
    {
      match c
      case Cpu => this.(cpu := Some(path))
      case CpuAcct => this.(cpuacct := Some(path))
      case Memory => this.(memory := Some(path))
    }
  }

  /** `CgroupV1MountPoints::default()`: nothing mounted. */
  const NO_MOUNT_POINTS := CgroupV1MountPoints(None, None, None)

  /** The files the v1 reader opens. */
  datatype V1File = CfsQuota | CfsPeriod | CpuacctUsage | MemoryUsageInBytes | MemoryLimitInBytes | MemoryStat

  /** The controller whose hierarchy holds the file. */
  function ControllerOf(f: V1File): Controller {
    match f
    case CfsQuota | CfsPeriod => Cpu
    case CpuacctUsage => CpuAcct
    case MemoryUsageInBytes | MemoryLimitInBytes | MemoryStat => Memory
  }

  function FileName(f: V1File): string {
    match f
    case CfsQuota => "cpu.cfs_quota_us"
    case CfsPeriod => "cpu.cfs_period_us"
    case CpuacctUsage => "cpuacct.usage"
    case MemoryUsageInBytes => "memory.usage_in_bytes"
    case MemoryLimitInBytes => "memory.limit_in_bytes"
    case MemoryStat => "memory.stat"
  }

  /** The path helpers (`cpu_quota_path`, ..., `memory_stat_path`): absent
      exactly when the file's controller is not mounted, otherwise the
      mount point joined with the file name. */
  function FilePath(mp: CgroupV1MountPoints, f: V1File): (r: Option<string>)
    ensures r.None? <==> mp.Get(ControllerOf(f)).None?
    ensures r.Some? ==> r.value == JoinPath(mp.Get(ControllerOf(f)).value, FileName(f))
  {
    match mp.Get(ControllerOf(f))
    case None => None
    case Some(mount) => Some(JoinPath(mount, FileName(f)))
  }

  /** The single-line getters (`get_cgroup_v1_cpu_cfs_quota` and the rest):
      `NotFound` without opening anything when the controller is not
      mounted, otherwise the first line of the file. */
  function ReadFile(mp: CgroupV1MountPoints, fs: FileSystem, f: V1File): (r: Result<string>)
    ensures mp.Get(ControllerOf(f)).None? ==> r == Err(IoError(NotFound, FileName(f) + " file not found"))
    ensures r.Ok? <==> FilePath(mp, f).Some? && FilePath(mp, f).value in fs
    ensures r.Err? ==> r.error.kind == NotFound
  {
    match FilePath(mp, f)
    case None => Err(IoError(NotFound, FileName(f) + " file not found"))
    case Some(path) => ReadFirstLine(fs, path)
  }

  /** `get_cgroup_v1_memory_stat`: every line of `memory.stat`. */
  function ReadMemoryStat(mp: CgroupV1MountPoints, fs: FileSystem): (r: Result<seq<string>>)
    ensures mp.memory.None? ==> r == Err(IoError(NotFound, "memory.stat file not found"))
    ensures r.Ok? <==> FilePath(mp, MemoryStat).Some? && FilePath(mp, MemoryStat).value in fs
  {
    match FilePath(mp, MemoryStat)
    case None => Err(IoError(NotFound, "memory.stat file not found"))
    case Some(path) => ReadLines(fs, path)
  }

  /** True when the file's controller is mounted and the file exists. */
  predicate Present(mp: CgroupV1MountPoints, fs: FileSystem, f: V1File) {
    mp.Get(ControllerOf(f)).Some? && JoinPath(mp.Get(ControllerOf(f)).value, FileName(f)) in fs
  }

  /** `CgroupV1FilesystemReader::is_available_for`: a metric is available
      when the reads it needs succeed. The core count needs both the quota
      and the period; the memory total needs `memory.limit_in_bytes` or
      `memory.stat`, with no check for the "no limit" value. */
  function IsAvailableFor(mp: CgroupV1MountPoints, fs: FileSystem, rt: ResourceType): (r: bool)
    ensures rt == NumCpus ==> (r <==> Present(mp, fs, CfsQuota) && Present(mp, fs, CfsPeriod))
    ensures rt == CpuUsage ==> (r <==> Present(mp, fs, CpuacctUsage))
    ensures rt == MemoryUsageKb ==> (r <==> Present(mp, fs, MemoryUsageInBytes))
    ensures rt == MemoryTotalKb ==> (r <==> Present(mp, fs, MemoryLimitInBytes) || Present(mp, fs, MemoryStat))
  {
    match rt
    case NumCpus => ReadFile(mp, fs, CfsQuota).Ok? && ReadFile(mp, fs, CfsPeriod).Ok?
    case CpuUsage => ReadFile(mp, fs, CpuacctUsage).Ok?
    case MemoryUsageKb => ReadFile(mp, fs, MemoryUsageInBytes).Ok?
    case MemoryTotalKb => ReadFile(mp, fs, MemoryLimitInBytes).Ok? || ReadMemoryStat(mp, fs).Ok?
  }

  /** With no controller mounted nothing is available, whatever the files. */
  lemma NothingAvailableWithoutMounts(fs: FileSystem, rt: ResourceType)
    ensures !IsAvailableFor(NO_MOUNT_POINTS, fs, rt)
  {
  }

  /** Wherever the memory controller is mounted, a `memory.stat` there
      makes the memory total available even when `memory.limit_in_bytes`
      is missing, although reading that limit fails. */
  lemma MemoryStatAloneSuffices(mp: CgroupV1MountPoints, fs: FileSystem, dir: string)
    requires mp.memory == Some(dir)
    requires JoinPath(dir, "memory.stat") in fs && JoinPath(dir, "memory.limit_in_bytes") !in fs
    ensures IsAvailableFor(mp, fs, MemoryTotalKb)
    ensures ReadFile(mp, fs, MemoryLimitInBytes).Err? && ReadMemoryStat(mp, fs).Ok?
  {
    assert mp.Get(Memory) == Some(dir);
    assert Present(mp, fs, MemoryStat) && !Present(mp, fs, MemoryLimitInBytes);
  }

  /** A co-mounted `cpu,cpuacct` directory serves both CPU metrics once
      its three files exist. */
  lemma CoMountedCpuServesBoth(mp: CgroupV1MountPoints, fs: FileSystem, dir: string)
    requires mp.cpu == Some(dir) && mp.cpuacct == Some(dir)
    requires JoinPath(dir, "cpu.cfs_quota_us") in fs
    requires JoinPath(dir, "cpu.cfs_period_us") in fs
    requires JoinPath(dir, "cpuacct.usage") in fs
    ensures IsAvailableFor(mp, fs, NumCpus) && IsAvailableFor(mp, fs, CpuUsage)
  {
  }
}
