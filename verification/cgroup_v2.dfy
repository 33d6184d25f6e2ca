/** The cgroup v2 source: the interface files under the v2 mount point,
    the getters that read them, and the availability probe that refuses
    files whose value is "unlimited". */
module CgroupV2 {
  import opened Results
  import opened Text
  import opened Numbers
  import opened Stats
  import opened Files
  import opened CgroupV2Metrics

  /** The interface files the v2 reader opens. */
  datatype V2File = CpuMax | CpuStat | MemoryCurrent | MemoryMax

  function FileName(f: V2File): string {
    match f
    case CpuMax => "cpu.max"
    case CpuStat => "cpu.stat"
    case MemoryCurrent => "memory.current"
    case MemoryMax => "memory.max"
  }

  /** The file each metric comes from. */
  function FileFor(rt: ResourceType): V2File {
    match rt
    case NumCpus => CpuMax
    case CpuUsage => CpuStat
    case MemoryUsageKb => MemoryCurrent
    case MemoryTotalKb => MemoryMax
  }

  /** The path helpers (`cpu_max_path`, ...): the file under the mount point. */
  function FilePath(root: string, f: V2File): string {
    JoinPath(root, FileName(f))
  }

  /** `CgroupV2Source::get_num_cpus` over `get_cgroup_v2_cpu_max`. */
  function ReadNumCpus(root: string, fs: FileSystem): Result<F64> {
    GetNumCpus(ReadFirstLine(fs, FilePath(root, CpuMax)))
  }

  /** `CgroupV2Source::get_memory_usage_kb` over `get_cgroup_v2_memory_current`. */
  function ReadMemoryUsageKb(root: string, fs: FileSystem): Result<nat> {
    GetMemoryCurrentKb(ReadFirstLine(fs, FilePath(root, MemoryCurrent)))
  }

  /** `CgroupV2Source::get_memory_total_kb` over `get_cgroup_v2_memory_max`. */
  function ReadMemoryTotalKb(root: string, fs: FileSystem): Result<nat> {
    GetMemoryMaxKb(ReadFirstLine(fs, FilePath(root, MemoryMax)))
  }

  /** `CgroupV2Source::get_cpu_usage` over `get_cgroup_v2_cpu_stat`: the
      files as they were at the first and at the second reading, and the
      wall-clock microseconds between them. */
  function ReadCpuUsage(root: string, before: FileSystem, after: FileSystem, elapsedUs: nat): Result<CpuUsageValue> {
    GetCpuUsage(ReadLines(before, FilePath(root, CpuStat)), ReadLines(after, FilePath(root, CpuStat)), elapsedUs)
  }

  /** The probe's extra refusal: `memory.max` whose first line trims to
      "max", or `cpu.max` whose first word is "max". */
  predicate Unlimited(rt: ResourceType, firstLine: string) {
    match rt
    case MemoryTotalKb => Trim(firstLine) == "max"
    case NumCpus => |Tokens(firstLine)| > 0 && Tokens(firstLine)[0] == "max"
    case _ => false
  }

  /** `CgroupV2FilesystemReader::is_available_for`: the metric's file is
      readable (opens and is not empty) and is not marked unlimited. */
  function IsAvailableFor(root: string, fs: FileSystem, rt: ResourceType): (r: bool)
    ensures r ==> IsFileReadable(fs, FilePath(root, FileFor(rt)))
    ensures rt == CpuUsage || rt == MemoryUsageKb ==> (r <==> IsFileReadable(fs, FilePath(root, FileFor(rt))))
    ensures rt == NumCpus && IsFileReadable(fs, FilePath(root, CpuMax)) ==>
              (r <==> var words := Tokens(FirstLine(fs[FilePath(root, CpuMax)])); words == [] || words[0] != "max")
    ensures rt == MemoryTotalKb && IsFileReadable(fs, FilePath(root, MemoryMax)) ==>
              (r <==> Trim(FirstLine(fs[FilePath(root, MemoryMax)])) != "max")
  {
    var path := FilePath(root, FileFor(rt));
    IsFileReadable(fs, path) && !Unlimited(rt, FirstLine(fs[path]))
  }

  // The probe never turns away a metric the getter would deliver:
  // whenever a getter succeeds, the probe says available.

  lemma NumCpusAvailableWhenReadable(root: string, fs: FileSystem)
    requires ReadNumCpus(root, fs).Ok?
    ensures IsAvailableFor(root, fs, NumCpus)
  {
    var path := FilePath(root, CpuMax);
    var line := FirstLine(fs[path]);
    assert GetNumCpus(Ok(line)).Ok?;
    var parts := Tokens(Trim(line));
    assert |parts| == 2 && ParseU64(parts[0]).Some?;
    MaxIsNoNumber();
    assert parts[0] != "max";
    assert Tokens(line) == parts by { TokensOfTrim(line); }
    assert !Unlimited(NumCpus, line);
    assert line != [];
    assert IsFileReadable(fs, path);
  }

  lemma CpuUsageAvailableWhenReadable(root: string, fs: FileSystem)
    requires GetCpuUsageUsec(ReadLines(fs, FilePath(root, CpuStat))).Ok?
    ensures IsAvailableFor(root, fs, CpuUsage)
  {
    NoLinesIffEmpty(fs[FilePath(root, CpuStat)]);
  }

  lemma MemoryUsageAvailableWhenReadable(root: string, fs: FileSystem)
    requires ReadMemoryUsageKb(root, fs).Ok?
    ensures IsAvailableFor(root, fs, MemoryUsageKb)
  {
    var line := FirstLine(fs[FilePath(root, MemoryCurrent)]);
    assert ParseKb(line, "memory.current").Ok?;
    assert Trim(line) != [];
  }

  lemma MemoryTotalAvailableWhenReadable(root: string, fs: FileSystem)
    requires ReadMemoryTotalKb(root, fs).Ok?
    ensures IsAvailableFor(root, fs, MemoryTotalKb)
  {
    var line := FirstLine(fs[FilePath(root, MemoryMax)]);
    assert GetMemoryMaxKb(Ok(line)).Ok?;
    assert Trim(line) != "max";
    assert ParseKb(line, "memory.max").Ok?;
    assert Trim(line) != [];
  }

  /** For a readable `cpu.max` whose first word is `max` the probe says
      unavailable, and the getter refuses the file too. */
  lemma CpuProbeRefusesUnlimitedQuota(root: string, fs: FileSystem)
    requires IsFileReadable(fs, FilePath(root, CpuMax))
    requires var words := Tokens(FirstLine(fs[FilePath(root, CpuMax)])); words != [] && words[0] == "max"
    ensures !IsAvailableFor(root, fs, NumCpus)
    ensures ReadNumCpus(root, fs).Err?
  {
    var line := FirstLine(fs[FilePath(root, CpuMax)]);
    TokensOfTrim(line);
    MaxIsNoNumber();
    assert ReadNumCpus(root, fs) == GetNumCpus(Ok(line));
  }

  /** For a readable `memory.max` the probe refuses exactly the value the
      getter refuses as unlimited. */
  lemma MemoryProbeMatchesGetter(root: string, fs: FileSystem)
    requires IsFileReadable(fs, FilePath(root, MemoryMax))
    ensures !IsAvailableFor(root, fs, MemoryTotalKb) <==>
            ReadMemoryTotalKb(root, fs) == Err(IoError(InvalidData, UNLIMITED_MEMORY_MESSAGE))
  {
    var line := FirstLine(fs[FilePath(root, MemoryMax)]);
    assert ReadMemoryTotalKb(root, fs) == GetMemoryMaxKb(Ok(line));
    assert !IsAvailableFor(root, fs, MemoryTotalKb) <==> Trim(line) == "max";
    if Trim(line) != "max" {
      var r := ParseKb(line, "memory.max");
      assert GetMemoryMaxKb(Ok(line)) == r;
      if r.Err? {
        var prefix := InvalidFormatPrefix("memory.max");
        assert r.error.message[..|prefix|] == prefix;
        assert r.error.message[0] == 'I';
        assert UNLIMITED_MEMORY_MESSAGE[0] == "`memory.max`"[0] == '`';
      }
    }
  }
}
