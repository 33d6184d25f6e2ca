# acolyte resource accounting, modelled in Dafny

acolyte is a small agent that runs next to a workload and reports how much
CPU, memory and GPU the workload uses. This project models the agent's
accounting core:

- **Finding the cgroup hierarchy.** `/proc/self/cgroup` gives the cgroup version. `/proc/mounts` gives the v2 mount point and the v1 controller mount points.
- **Reading each metric from cgroup v2, cgroup v1 or `/proc`.** The metrics are the core count, CPU usage, memory usage and memory total. For each metric, the selector tries v2, then v1, then `/proc`, and takes the first source that answers.
- **Aggregating the `nvidia-smi` CSV output.**
- **Deriving the logged figures.** These are normalised CPU usage, CPU percent, memory in MB and memory percent.
- **Maintaining the stats directory.** This covers the `stats-<ms>.json` file name and the clean-up that keeps only the newest `max_stats_entries` files.
- **The restart supervisor.** It sleeps before a restart and re-executes with an incremented `ACOLYTE_RESTART` counter after a crash. It gives up after `MAX_RUN_ATTEMPTS` (5) runs. `ACOLYTE_NO_RESTART` switches it off.

Everything the agent reads from the outside is a parameter of the model:

- file contents;
- the filesystem, as a map from path to text;
- the environment, as a map from name to value;
- the clock;
- the directory listing;
- the outcome of a run.

Rust's text conversions are modelled as the agent uses them, in `Text` and `Numbers`. These are `split_whitespace`, `trim`, `lines`, `read_line`, `u64`/`u8::from_str` and the plain-decimal part of `f64::from_str`.

Module layout, following `src/`:

| module | file | source |
|---|---|---|
| `Results`, `Text`, `Numbers` | results.dfy, text.dfy, numbers.dfy | `io::Result`, Rust std text handling |
| `Stats` | stats.dfy | src/stats/mod.rs (types, `has_v1`/`has_v2`) and the `f64` arithmetic |
| `Files` | files.dfy | `File::open`, `read_line`, `lines`, `PathBuf::join`, src/stats/utils.rs |
| `Paths` | paths.dfy | src/stats/paths.rs |
| `CgroupV1`, `CgroupV1CpuUsage` | cgroup_v1.dfy, cgroup_v1_cpu_usage.dfy | src/stats/cgroup_v1/ |
| `CgroupV2`, `CgroupV2Metrics` | cgroup_v2.dfy, cgroup_v2_metrics.dfy | src/stats/cgroup_v2/ |
| `ProcStat`, `ProcMeminfo` | proc_stat.dfy, proc_meminfo.dfy | src/stats/proc/, src/stats/proc.rs |
| `NvidiaSmi` | nvidia_smi.dfy | src/stats/nvidia_smi/gpu_stats.rs |
| `Selection` | selection.dfy | src/stats/mod.rs (`get_num_cpus` … `get_memory_total_kb`) |
| `Report` | report.dfy | src/lib.rs (`run_acolyte`'s loop body) |
| `Store` | store.dfy | src/store.rs |
| `Supervisor` | supervisor.dfy | src/main.rs, src/env.rs |

An `f64` is modelled as `F64 = Finite(real) | NonFinite`. Division by zero is the only way the agent's arithmetic leaves the finite values, so `Stats.Divide` is non-finite exactly when the divisor is zero. Rounding is not modelled (see "## Left out").

Three behaviours of the program are easy to misread:

- **Source selection.** The selector never calls `is_available_for`. It calls each source's getter in turn and takes the first `Ok`. The probes are modelled on their own (`CgroupV1.IsAvailableFor`, `CgroupV2.IsAvailableFor`).
- **Core count missing.** When no source yields a core count, `run_acolyte` uses `unwrap_or(0.0)`, so the CPU figures are computed with zero cores.
- **No-restart mode.** A run that returns exits with 0. A panic is not caught in this mode, so the process ends with Rust's panic exit status 101.

## Model

| member | source | states |
|---|---|---|
| Stats.VersionHierarchies | src/stats/mod.rs:44-56 | every cgroup layout has at least one hierarchy; only the hybrid has both; `has_v1` holds iff the layout is not pure v2, and `has_v2` iff it is not pure v1 |
| Stats.CounterRate | src/stats/cgroup_v2/cpu_usage.rs:25-32 | the rate of a cumulative counter is never negative, is 0 when the counter went backwards (saturating subtraction), and otherwise times the elapsed time gives the counter's advance |
| Stats.Divide | src/lib.rs:22 | `f64` division is finite exactly when the divisor is non-zero, and then the quotient times the divisor is the dividend |
| Stats.Times | src/lib.rs:18 | scaling keeps finiteness both ways and multiplies the finite value |
| Files.JoinPath | src/stats/cgroup_v2/mod.rs:67-81 | the joined path starts with the directory and ends with the file name |
| Files.ReadFirstLine | src/stats/cgroup_v2/mod.rs:90-97 | the read succeeds iff the file exists; the line is a prefix of the file with no `\n` before its last character; it ends in `\n` when the file has one and is the whole file otherwise; a missing file is `NotFound` |
| Files.ReadLines | src/stats/cgroup_v2/mod.rs:85-88 | the read succeeds iff the file exists; no line holds a `\n`; there is one line per terminator plus one for an unterminated tail; for a file without `\r`, the lines joined with `\n` plus the final terminator rebuild the file |
| Text.JoinOfLines | src/stats/cgroup_v2/mod.rs:85-88 | for text without `\r`, joining `lines()` with `\n` and adding back a final `\n` gives the text |
| Paths.V2MountPointOf | src/stats/paths.rs:16-25 | a mounts line yields a v2 mount point iff it is a `cgroup2` line with enough fields |
| Paths.GetCgroupV2MountPoint | src/stats/paths.rs:13-31 | a read error is passed on; the result is `NotFound` with the fixed message iff no line is a `cgroup2` mount |
| Paths.V2MountPointIsFirst | src/stats/paths.rs:16-25 | when several `cgroup2` lines exist, the first one's mount point is returned |
| Paths.ApplyV1Line | src/stats/paths.rs:41-64 | one mounts line sets exactly the controllers named in its options to its mount point and leaves the others unchanged |
| Paths.LastMountOf | src/stats/paths.rs:34-67 | a controller has no mount point iff no line of the table mounts it |
| Paths.ScanV1IsLastMount | src/stats/paths.rs:41-64 | the line-by-line scan ends with each controller at the mount point of the LAST line that mounts it |
| Paths.LastMountAt | src/stats/paths.rs:52-62 | the mount point recorded for a controller is that of the last line mounting it, whatever came before |
| Paths.GetCgroupV1MountPoints | src/stats/paths.rs:34-67 | a read error is passed on; otherwise every controller's entry is the last mount of that controller |
| Paths.UnmountedStaysNone | src/stats/paths.rs:39 | a controller no line mounts keeps the default `None` |
| Paths.CoMountedShareMountPoint | src/stats/paths.rs:52-62 | a `cpu,cpuacct` co-mount gives both controllers the same directory (test at src/stats/paths.rs:147-192) |
| Paths.CoMountedLine | src/stats/paths.rs:147-192 | a co-mounted `cpu,cpuacct` line mounts cpu and cpuacct, not memory, at its second field |
| Paths.DetectCgroupVersion | src/stats/paths.rs:72-82 | a read error is passed on; empty content is `InvalidData` with the content in the message; detection never reports the hybrid layout |
| Paths.V2IffSingleLine | src/stats/paths.rs:75-80 | the layout is v2 iff `/proc/self/cgroup` has exactly one line |
| Paths.TwoLinesIsV1 | src/stats/paths.rs:80 | two or more lines mean v1 |
| Paths.DetectsSingleLineAsV2 | src/stats/paths.rs:231-235 | the single line `0::/` is detected as v2 |
| CgroupV1.Set | src/stats/paths.rs:52-62 | setting one controller's mount point changes that controller's entry and no other |
| CgroupV1.FilePath | src/stats/cgroup_v1/mod.rs:72-112 | a v1 file's path is absent iff its controller is not mounted, and otherwise is the mount point joined with the file name |
| CgroupV1.ReadFile | src/stats/cgroup_v1/mod.rs:127-200 | an unmounted controller gives `NotFound` with "<file> file not found" without opening anything; the read succeeds iff the controller is mounted and the file exists; every failure is `NotFound` |
| CgroupV1.ReadMemoryStat | src/stats/cgroup_v1/mod.rs:202-212 | `memory.stat` is read as lines; the read fails with the fixed message when memory is unmounted, and succeeds iff the file exists |
| CgroupV1.IsAvailableFor | src/stats/cgroup_v1/mod.rs:214-228 | the core count needs both quota and period; usage needs `cpuacct.usage`; memory usage needs `memory.usage_in_bytes`; memory total needs the limit file or `memory.stat` |
| CgroupV1.NothingAvailableWithoutMounts | src/stats/cgroup_v1/mod.rs:306-312 | with no controller mounted no metric is available |
| CgroupV1.MemoryStatAloneSuffices | src/stats/cgroup_v1/mod.rs:283-300 | for every memory mount point and file system, a `memory.stat` there makes the memory total available even when `memory.limit_in_bytes` is missing and reading it fails |
| CgroupV1.CoMountedCpuServesBoth | src/stats/cgroup_v1/mod.rs:238-277 | one co-mounted cpu directory with the three cpu files serves both CPU metrics |
| CgroupV1CpuUsage.GetCpuUsageNs | src/stats/cgroup_v1/cpu_usage.rs:35-44 | the read error is passed on; the trimmed text is accepted iff it is a `u64`; otherwise `InvalidData` with "Invalid cpuacct.usage format: " followed by the text of the `ParseIntError` kind `from_str` reports |
| CgroupV1CpuUsage.OverflowReportedFirst | src/stats/cgroup_v1/cpu_usage.rs:37-42 | a counter whose leading digits exceed the `u64` range is refused with the overflow message, even when a stray character follows the digits |
| Numbers.IntErrorOf | src/stats/cgroup_v1/cpu_usage.rs:37-42 | the `ParseIntError` kind of refused text: `Empty` iff the text is empty; `PosOverflow` iff the digits leading the text (after an optional `+`) exceed the range; `InvalidDigit` otherwise |
| Numbers.DigitLoopVerdict | src/stats/cgroup_v2/num_cpus.rs:33-50 | `from_str`'s left-to-right loop reports an overflow exactly when reading the leading digits takes the accumulator out of range, and takes the whole text exactly when it is all digits that keep it in range |
| Numbers.AccumulateFromZero | src/stats/cgroup_v2/num_cpus.rs:33-50 | the loop's accumulator, started at 0, ends at the decimal value of the digits it has read |
| Numbers.OverflowComesFirst | src/stats/cgroup_v2/num_cpus.rs:33-50 | text that starts with an out-of-range run of digits is refused, as an overflow, whatever follows the run |
| CgroupV1CpuUsage.ReadsWrittenCounter | src/stats/cgroup_v1/cpu_usage.rs:35-44 | a counter written as decimal plus newline reads back as itself |
| CgroupV1CpuUsage.RejectsWords | src/stats/cgroup_v1/cpu_usage.rs:52-71 | non-numeric text is refused as `InvalidData` |
| CgroupV1CpuUsage.GetCpuUsage | src/stats/cgroup_v1/cpu_usage.rs:8-33 | the first failed reading is passed on; a zero elapsed time is an error; success gives a non-negative `FromCgroupV1` value |
| CgroupV1CpuUsage.UsageMeasuresCpuTime | src/stats/cgroup_v1/cpu_usage.rs:27-32 | two written counters give the advance (saturating) divided by the elapsed nanoseconds |
| CgroupV2.IsAvailableFor | src/stats/cgroup_v2/mod.rs:117-164 | availability needs the metric's file to be readable; for usage and memory usage readability is also enough; a readable `cpu.max` is refused iff its first word is `max`, and a readable `memory.max` iff its first line trims to `max` |
| CgroupV2.CpuProbeRefusesUnlimitedQuota | src/stats/cgroup_v2/mod.rs:144-156 | a readable `cpu.max` whose first word is `max` makes the core count unavailable, and the getter refuses it too |
| CgroupV2.NumCpusAvailableWhenReadable | src/stats/cgroup_v2/mod.rs:144-159 | when `cpu.max` yields a core count, the probe says the count is available |
| CgroupV2.CpuUsageAvailableWhenReadable | src/stats/cgroup_v2/mod.rs:118-127 | when `cpu.stat` has a usage line, the probe says usage is available |
| CgroupV2.MemoryUsageAvailableWhenReadable | src/stats/cgroup_v2/mod.rs:118-127 | when `memory.current` parses, the probe says memory usage is available |
| CgroupV2.MemoryTotalAvailableWhenReadable | src/stats/cgroup_v2/mod.rs:131-143 | when `memory.max` yields a limit, the probe says the memory total is available |
| CgroupV2.MemoryProbeMatchesGetter | src/stats/cgroup_v2/mod.rs:131-143 | for a readable `memory.max`, the probe refuses exactly when the trimmed first line is `max` |
| CgroupV2Metrics.MaxIsNoNumber | src/stats/cgroup_v2/num_cpus.rs:26-41 | `max` is not a `u64` |
| CgroupV2Metrics.Quotient | src/stats/cgroup_v2/num_cpus.rs:33-54 | the quotient succeeds iff both words are `u64`s and is then their `f64` quotient (non-finite for a zero period); failures are `InvalidData` |
| CgroupV2Metrics.GetNumCpus | src/stats/cgroup_v2/num_cpus.rs:5-55 | the read error is passed on; anything but two words is `InvalidData`; a `max` quota is the "unlimited" error; success iff both words parse, and the result is quota / period |
| CgroupV2Metrics.ReadsCpuLimit | src/stats/cgroup_v2/num_cpus.rs:63-81 | `"<quota> <period>\n"` reads back as quota / period |
| CgroupV2Metrics.RefusesUnlimitedQuota | src/stats/cgroup_v2/num_cpus.rs:85-94 | `max <period>` gives the unlimited-quota error |
| CgroupV2Metrics.UsageUsecOf | src/stats/cgroup_v2/cpu_usage.rs:41-45 | a line yields a value only if it starts with `usage_usec` and its second word is a `u64` |
| CgroupV2Metrics.GetCpuUsageUsec | src/stats/cgroup_v2/cpu_usage.rs:37-54 | the read error is passed on; the result is `InvalidData` with the fixed message iff no line yields a usage value |
| CgroupV2Metrics.UsageUsecIsFirst | src/stats/cgroup_v2/cpu_usage.rs:40-48 | the first line that yields a value wins |
| CgroupV2Metrics.ReadsUsageLine | src/stats/cgroup_v2/cpu_usage.rs:62-74 | a leading `usage_usec <n>` line reads as n whatever follows |
| CgroupV2Metrics.GetCpuUsage | src/stats/cgroup_v2/cpu_usage.rs:8-35 | the first failed reading is passed on; success iff both readings succeed, giving a non-negative `FromCgroupV2` value that is 0 when no time elapsed |
| CgroupV2Metrics.UsageMeasuresCpuTime | src/stats/cgroup_v2/cpu_usage.rs:25-34 | two readings give the usage advance divided by the elapsed microseconds |
| CgroupV2Metrics.ParseKb | src/stats/cgroup_v2/memory_max.rs:15-21 | accepted iff the trimmed text is a `u64` byte count; the result is the floor of bytes / 1024; failures are `InvalidData` "Invalid <file> format…" |
| CgroupV2Metrics.GetMemoryCurrentKb | src/stats/cgroup_v2/memory_current.rs:5-15 | the read error is passed on; otherwise the text is parsed as a byte count in KB |
| CgroupV2Metrics.GetMemoryMaxKb | src/stats/cgroup_v2/memory_max.rs:5-22 | the read error is passed on; a trimmed `max` is the "unlimited" error; otherwise the byte count in KB |
| CgroupV2Metrics.ReadsByteCount | src/stats/cgroup_v2/memory_current.rs:23-53 | a byte count written by the kernel reads back as bytes / 1024 in both memory files |
| CgroupV2Metrics.DecimalTextReadsAsKb | src/stats/cgroup_v2/memory_max.rs:15-21 | any text that trims to a decimal byte count reads as its whole KB in both memory files |
| CgroupV2Metrics.MaxTextRefused | src/stats/cgroup_v2/memory_max.rs:8-13 | any text that trims to `max` is the unlimited error in `memory.max` and an error in `memory.current` |
| ProcStat.CpuCount | src/stats/proc/num_cpus.rs:11-14 | the count of per-core lines is at most the number of lines |
| ProcStat.CpuCountAppend | src/stats/proc/num_cpus.rs:11-14 | counting distributes over concatenation, so each line counts on its own |
| ProcStat.CoreLines | src/stats/proc/cpu.rs:92-98 | the aggregate `cpu ` line is never counted and a numbered `cpuN` line always is |
| ProcStat.FourCoreHost | src/stats/proc/num_cpus.rs:26-42 | the aggregate line, four core lines and the intr/ctxt/btime lines count four cores |
| ProcStat.GetNumCpus | src/stats/proc/num_cpus.rs:6-18 | the read error is passed on; otherwise the per-core count as a finite `f64` between 0 and the number of lines |
| ProcStat.JiffiesOf | src/stats/proc/cpu_usage.rs:35-40 | the counters of a line are fewer than its words: the label is skipped |
| ProcStat.JiffiesOfWrittenLine | src/stats/proc/cpu_usage.rs:35-40 | a label followed by decimal counters reads back as exactly those counters |
| ProcStat.TotalCpuJiffies | src/stats/proc/cpu_usage.rs:24-43 | the read error is passed on; it fails iff there are no lines, with `InvalidData` "No stat data from proc provider" |
| ProcStat.JiffiesFromFirstLineOnly | src/stats/proc/cpu_usage.rs:33-40 | only the first line is read; the lines after it never change the reading |
| ProcStat.ReadCpuStat | src/stats/proc.rs:78-94 | the older reader passes on the open error and reads an empty file as no counters |
| ProcStat.ReadCpuStatAgrees | src/stats/proc.rs:78-94 | on a non-empty file the older reader gives the same counters as the provider-based one; on an empty file the older one gives no counters where the newer one fails |
| ProcStat.BusyFraction | src/stats/proc/cpu_usage.rs:46-94 | short or mismatched readings give 0; a total that did not advance gives 0; the result is at most 1; otherwise result × total advance = total advance − vacant advance (saturating at 0), so it is 1 when the vacant counters did not advance |
| ProcStat.BusyFractionIsFraction | src/stats/proc/cpu_usage.rs:77-93 | when no counter went backwards, the busy share lies in [0, 1] |
| ProcStat.CalculateCpuUsage | src/stats/proc/cpu_usage.rs:46-94 | fewer than five fields, mismatched lengths or a total that did not advance give 0; otherwise usage × total advance = total advance − the saturating advance of idle (field 3) plus iowait (field 4); for counters that did not go backwards, usage lies in [0, 1] |
| ProcStat.NoVacancyIsFullyBusy | src/stats/proc/cpu_usage.rs:77-93 | when the total advanced and idle + iowait did not, usage is exactly 1 |
| ProcStat.OnlyVacancyIsIdle | src/stats/proc/cpu_usage.rs:77-93 | when only idle and iowait advanced, usage is exactly 0 |
| ProcStat.CalculateIdleCpuUsage | src/stats/proc/cpu.rs:51-87 | as in src/stats/proc.rs:97-133: fewer than four fields, mismatched lengths or a total that did not advance give 0; otherwise usage × total advance = total advance − the saturating advance of idle (field 3) alone; for counters that did not go backwards, usage lies in [0, 1] |
| ProcStat.NoIdleIsFullyBusy | src/stats/proc/cpu.rs:51-87 | when the total advanced and idle did not, usage is exactly 1 |
| ProcStat.OnlyIdleIsIdle | src/stats/proc/cpu.rs:51-87 | when only idle advanced, usage is exactly 0 |
| ProcStat.UsageFixture | src/stats/proc/cpu_usage.rs:117-131 | the shared test fixture's 150 jiffies with 40 idle and 50 iowait give 0.4 counting iowait and 11/15 (about 0.7333) counting idle only, as the older test at src/stats/proc/cpu.rs:143-155 expects |
| ProcStat.ShortReadingIsIdle | src/stats/proc/cpu_usage.rs:52-67 | a reading without the iowait field counts as no usage |
| ProcStat.GetCpuUsage | src/stats/proc/cpu_usage.rs:8-22 | the first failed reading is passed on; success iff both readings exist; a `FromProc` value in [0, 1] for counters that did not go backwards |
| ProcStat.ReadsWrittenReadings | src/stats/proc/cpu_usage.rs:16-21 | two written aggregate lines give the busy share between their counters |
| ProcStat.ReadsBusyShare | src/stats/proc/cpu_usage.rs:117-131 | two written readings 150 jiffies apart with 90 vacant give 0.4 |
| ProcStat.Scaled | src/stats/proc/cpu.rs:15-21 | the scaled usage is the busy fraction times the core count, and a fraction in [0, 1] gives a usage between 0 and the core count |
| ProcStat.ScaleCpuStats | src/stats/proc/cpu.rs:7-27 | the first failure is passed on; success iff all three reads succeed; the usage is the idle-only busy fraction of the two readings times the core count read, between 0 and the core count for counters that did not go backwards |
| ProcStat.GetCpuStats | src/stats/proc/cpu.rs:7-27 | `/proc/stat` read three times: success iff both readings and the count read succeed; the cores are the per-core lines of the third read, and the usage is the busy fraction of the first two readings times that count |
| ProcStat.LegacyGetCpuStats | src/stats/proc.rs:7-26 | over the file's text: success iff the three reads succeed; the cores are the per-core lines of the third; the usage is the busy fraction of the first two times that count |
| ProcStat.LegacyCpuStatsAgrees | src/stats/proc.rs:7-26 | for non-empty files, the `proc.rs` reader gives the same result as the `proc/cpu.rs` reader over the files' lines |
| ProcMeminfo.MeminfoValue | src/stats/proc/memory.rs:27-34 | the value is a `u64`; it is 0 for fewer than two words or a second word that is not a `u64`, and otherwise the second word's value |
| ProcMeminfo.MeminfoValueOfLine | src/stats/proc/memory.rs:131-138 | `<key> <kb> kB` reads back as kb |
| ProcMeminfo.Step | src/stats/proc/memory.rs:12-16 | a `MemAvailable:` line sets the available value; a `MemTotal:` line sets the total; any other line changes nothing |
| ProcMeminfo.StepOrderIrrelevant | src/stats/proc.rs:39-43 | testing `MemTotal:` first (older reader) or `MemAvailable:` first (newer reader) makes no difference |
| ProcMeminfo.ScansAgree | src/stats/proc.rs:36-48 | the older and newer scans reach the same totals on every input |
| ProcMeminfo.ScanAppend | src/stats/proc/memory.rs:11-21 | the scan over two blocks of lines stops after the first if both values were found there, and otherwise continues from where the first block left it |
| ProcMeminfo.ScanSkipsOtherLines | src/stats/proc/memory.rs:11-21 | lines carrying neither key leave the scan where it was |
| ProcMeminfo.TotalNeedsItsLine | src/stats/proc/memory.rs:8-21 | the total stays 0 unless a `MemTotal:` line is seen |
| ProcMeminfo.GetMemoryUsageAndTotalKb | src/stats/proc/memory.rs:5-25 | the read error is passed on; the total is the scanned `MemTotal`; usage plus the scanned `MemAvailable` is the total when available does not exceed it, and usage is 0 when it does |
| ProcMeminfo.LegacyMemoryStats | src/stats/proc.rs:29-60 | the open error is passed on; the total is the scanned `MemTotal`; usage plus available is the total when available does not exceed it, and 0 otherwise |
| ProcMeminfo.LegacyMemoryStatsAgrees | src/stats/proc.rs:29-60 | for the same file text the older reader reports what the newer one does |
| ProcMeminfo.ReadsTotalAndAvailable | src/stats/proc/memory.rs:41-56 | total, free and available lines give usage = total − available |
| ProcMeminfo.MissingAvailableIsAllUsed | src/stats/proc/memory.rs:58-73 | without `MemAvailable:` all memory counts as used |
| ProcMeminfo.MissingTotalIsNothing | src/stats/proc/memory.rs:75-103 | without `MemTotal:` both numbers are 0, including for empty input |
| ProcMeminfo.AvailableAboveTotalIsNoUsage | src/stats/proc/memory.rs:105-119 | more available than total is reported as no usage |
| NvidiaSmi.Fields | src/stats/nvidia_smi/gpu_stats.rs:17 | a line has one field per comma-separated piece |
| NvidiaSmi.MibAsKb | src/stats/nvidia_smi/gpu_stats.rs:31-41 | a `u64` MiB figure counts as ×1024 KB; anything else adds nothing |
| NvidiaSmi.PercentAsShare | src/stats/nvidia_smi/gpu_stats.rs:25-29 | a numeric percentage counts as a hundredth; anything else adds nothing |
| NvidiaSmi.Contribution | src/stats/nvidia_smi/gpu_stats.rs:17-41 | a line counts one GPU iff it has at least four fields; a shorter line adds nothing at all |
| NvidiaSmi.Aggregate | src/stats/nvidia_smi/gpu_stats.rs:16-42 | the GPU count is at most the number of lines |
| NvidiaSmi.GpusAtMostLines | src/stats/nvidia_smi/gpu_stats.rs:18-23 | each line adds at most one GPU, so the sum over lines is at most their number |
| NvidiaSmi.AggregateAppend | src/stats/nvidia_smi/gpu_stats.rs:16-42 | the aggregate of two blocks of output is the sum of their aggregates |
| NvidiaSmi.NoCommaNoGpu | src/stats/nvidia_smi/gpu_stats.rs:18-21 | a line without a comma is skipped |
| NvidiaSmi.UnrelatedOutputIsNoGpus | src/stats/nvidia_smi/gpu_stats.rs:100-111 | one line of unrelated text aggregates to no GPUs |
| NvidiaSmi.GetGpuStats | src/stats/nvidia_smi/gpu_stats.rs:6-50 | a failure to run the tool is passed on; otherwise at most one GPU per output line; empty output is no GPUs |
| NvidiaSmi.TwoGpus | src/stats/nvidia_smi/gpu_stats.rs:57-69 | two GPUs at 75% and 50% with 8000 and 4000 of 16000 MiB each give 2 GPUs, 1.25, 12 288 000 KB of 32 768 000 KB |
| NvidiaSmi.TruncatedLineSkipped | src/stats/nvidia_smi/gpu_stats.rs:114-126 | a second line cut short after three fields is skipped: 1 GPU, 0.75, 8 192 000 KB of 16 384 000 KB |
| Selection.Select | src/stats/mod.rs:59-84 | a source is tried only if the layout has its hierarchy and its mount point is known; the result is none iff every tried source and `/proc` failed; a v2 answer wins; any answer comes from a tried source |
| Selection.SelectIsFirstAnswer | src/stats/mod.rs:64-83 | the choice is the first answer among v2, v1 and `/proc`, in that order |
| Selection.UnknownVersionUsesProc | src/stats/mod.rs:82-83 | with no detected version only `/proc` is consulted |
| Selection.PureV1IgnoresV2 | src/stats/mod.rs:64-71 | on a pure v1 layout the v2 mount point makes no difference |
| Selection.PureV2IgnoresV1 | src/stats/mod.rs:73-80 | on a pure v2 layout the v1 mount points make no difference |
| Selection.V2AnswerShadowsLaterSources | src/stats/mod.rs:64-71 | once v2 answers, v1 and `/proc` make no difference |
| Selection.GetNumCpus | src/stats/mod.rs:59-84 | with no version the `/proc` count is used; a readable `/proc/stat` guarantees an answer |
| Selection.GetCpuUsage | src/stats/mod.rs:86-111 | with no version the `/proc` usage is used; a v2-tagged answer needs the v2 source to be tried, and a v1-tagged one the v1 source, whose `cpuacct.usage` readings it then is; on a v2 layout with a mount point the answer is tagged v2 or proc, on a v1 layout v1 or proc |
| Selection.V1CpuUsage | src/stats/cgroup_v1/mod.rs:43-46 | the v1 source's CPU usage, read from `cpuacct.usage` under the cpuacct mount, is tagged `FromCgroupV1` |
| Selection.GetMemoryUsageKb | src/stats/mod.rs:113-138 | a readable `/proc/meminfo` guarantees an answer, which is the `/proc` usage when no version is known |
| Selection.GetMemoryTotalKb | src/stats/mod.rs:140-165 | a readable `/proc/meminfo` guarantees an answer, which is the `/proc` total when no version is known |
| Selection.UnlimitedMemoryFallsBackToHost | src/stats/mod.rs:145-164 | on v2 with `memory.max` refused (e.g. `max`), the memory total is the host's from `/proc/meminfo` |
| Report.KbToMb | src/lib.rs:28-29 | MB is the floor of KB / 1024 |
| Report.MakeReport | src/lib.rs:11-43 | missing core count is 0; missing usage is v2 zero; v2 usage passes through, proc usage is scaled by cores; a proc reading's CPU percent is its usage × 100, not divided by cores; CPU percent is non-finite when both are missing; MB figures, including the GPU memory figures, are floors of KB / 1024; memory percent is finite iff the total is non-zero, and then percent × total = usage × 100; the GPU line is present iff GPU stats were obtained |
| Report.CpuPercent | src/lib.rs:21-24 | a proc reading's percent is usage × 100; a cgroup v2 reading's percent is finite iff the core count is finite and non-zero, and then percent × cores = usage × 100 |
| Report.GpuLine | src/lib.rs:36-42 | GPU usage and count are passed through; GPU memory MB figures are floors of KB / 1024 |
| Report.PercentMatchesNormalizedUsage | src/lib.rs:16-24 | with a non-zero finite core count, CPU percent × cores = normalised usage × 100 for both provenances |
| Report.FullyBusyFourCores | src/lib.rs:16-24 | a fully busy 4-core host reads 4.0 normalised and 100% |
| Report.HalfOfFourV2Cores | src/lib.rs:16-30 | 2.0 cgroup cores of 4 reads 50%; 2047 KB is 1 MB |
| Supervisor.GetRestartCount | src/main.rs:18-23 | the counter is below 256, and 0 when the variable is unset |
| Supervisor.RestartCountRoundTrip | src/main.rs:70-83 | a counter written with `to_string` reads back as itself |
| Supervisor.RestartCountExamples | src/main.rs:18-23 | non-numbers, out-of-range and negative text read as 0; `+3` reads as 3 |
| Supervisor.Supervise | src/main.rs:38-92 | no-restart mode never sleeps and exits 0 or 101; otherwise it sleeps iff the counter is positive; a return exits 0; re-execution happens iff restarts are on, the run panicked, counter+1 < 5 and exec works; exit codes are 0, 1 or 101, and 1 only after a crash with restarts on; a re-exec carries counter+1, the same id and arguments, and no other change to the environment |
| Supervisor.CrashLoop | src/main.rs:66-90 | an agent that always crashes ends with exit 1 after 5 − counter runs (1 run when the counter is already at the limit) |
| Supervisor.CrashingAgentRunsFiveTimes | src/env.rs:6 | starting from a clean environment, an always-crashing agent runs `MAX_RUN_ATTEMPTS` = 5 times and exits 1 |
| Supervisor.CrashLoopKeepsId | src/main.rs:82-85 | every re-execution of the crash loop carries the same `ACOLYTE_ID` |
| Supervisor.NextCountAsWritten | src/main.rs:70 | the counter as written is a `u8`: below 256 it is count + 1, and 255 + 1 wraps to 0 |
| Supervisor.SuperviseAsWritten | src/main.rs:47-92 | the code as written agrees with the corrected supervisor whenever the counter is below 255 |
| Supervisor.WrappedCounterRestartsBudget | src/main.rs:70-78 | from counter 255 a crash re-executes with counter 0 as written, where the intended behaviour is exit 1 |
| Store.NewEntry | src/store.rs:37-54 | a new entry carries no metrics and a non-negative time; a clock before the epoch gives 0 |
| Store.TimestampMs | src/store.rs:61 | the millisecond stamp is the floor of seconds × 1000 when in `u64` range, and 0 for non-positive times |
| Store.WrittenFileIsCandidate | src/store.rs:61-62 | every file the agent writes is one that clean-up considers |
| Store.EntryFileNames | src/store.rs:61-62 | time 1.5 s is written as `stats-1500.json`; a pre-epoch time as `stats-0.json` |
| Store.Candidates | src/store.rs:84-94 | candidates are at most the listing's length; each is a successfully listed regular file named `stats-*.json`, and every such listed file is among them |
| Store.NameLeTotal | src/store.rs:101 | path order is total |
| Store.NameLeTransitive | src/store.rs:101 | path order is transitive |
| Store.NameLeAntisymmetric | src/store.rs:101 | path order is antisymmetric |
| Store.SortNames | src/store.rs:101 | sorting yields an ordered permutation of the names |
| Store.PlanCleanUp | src/store.rs:96-109 | removed and kept partition the names; nothing is removed at or below the limit, otherwise exactly the excess is; every removed name sorts before every kept one |
| Store.NewestFileSurvives | src/store.rs:96-109 | with a positive limit the newest file is kept and not removed |
| Store.OldestOfThreeRemoved | src/store.rs:101-104 | `stats-3`, `stats-1`, `stats-2` with limit 2 removes `stats-1` and keeps `stats-2`, `stats-3` |
| Store.Removed | src/store.rs:104-109 | the removals that succeed are exactly the planned names whose removal succeeds; when every removal succeeds, all planned names are removed |
| Store.CleanUp | src/store.rs:81-112 | clean-up fails iff listing the directory fails; failed removals are logged and never an error; what is removed is among the planned removals; when every removal succeeds, at most `maxEntries` candidates remain |
| Store.AllRemovedLeaveKept | src/store.rs:96-109 | when every removal succeeds, the candidates left are exactly the plan's kept names |

## Left out

- **I/O, time and processes.** File and directory reads, `nvidia-smi` execution, `thread::sleep`, `Instant` and `SystemTime` are not modelled. Their results are parameters: file contents, a `FileSystem` map, elapsed time, the clock value, the listing, and whether removal or `exec` succeeds. The 100 ms and configurable sample waits only separate two readings, so they do not appear.
- **Per-line read errors.** `lines().collect()` can fail on one line (invalid UTF-8). Contents are modelled as text, so a file reads whole or not at all.
- **Floating point.** `f64` rounding is not modelled; values are exact reals. NaN and the infinities are one `NonFinite` value. So `u / inf == 0` and `NaN` ordering are not distinguished, and `Report.MakeReport` states CPU percent only as "non-finite" when the core count is missing.
- **NvidiaSmi.PercentAsShare:** covers only the plain-decimal forms of `f64::from_str`: an optional sign, then digits with at most one `.` and at least one digit (so `5`, `5.`, `.5` and `5.25`). Rust also accepts exponents (`1e2`, `5E-1`), `inf`, `infinity` and `nan` in any case. The model reads these as no number, so such a field adds nothing where Rust would add its value.
- **Integer width.** `u64` wrap-around is not modelled in these places:
  - the jiffy sums and the idle+iowait add (`ProcStat`);
  - the ×1024 of `NvidiaSmi.MibAsKb` and the GPU sums;
  - the kernel counters.
  
  Values are assumed below 2^64, as the kernel writes them. `Store.TimestampMs` saturates as Rust's `as u64` does.
- **CgroupV1CpuUsage.GetCpuUsage, CgroupV2Metrics.GetCpuUsage:** elapsed time is a whole number of nanoseconds or microseconds, as `as_nanos()` and `as_micros()` give. The sub-unit remainder is dropped.
- **cgroup v1 core count and memory.** `get_num_cpus`, `get_memory_usage_kb` and `get_memory_total_kb` of the v1 source (src/stats/cgroup_v1/num_cpus.rs, memory_current.rs, memory_max.rs) are `todo!()`. In `Selection` they are the parameter `fromV1`. The v1 CPU usage is implemented and is wired in (`Selection.V1CpuUsage`).
- **CgroupV1.ReadFile:** the filesystem is a map, so a failed open is always `NotFound`. `PermissionDenied` and the other error kinds that `File::open` and `read_line` can report, and that the getters pass on, are not modelled.
- **Files.ReadFirstLine, Files.ReadLines:** as for `CgroupV1.ReadFile`, the only failure modelled is a missing file (`NotFound`).
- **Wiring that does not compile as written.** The model takes the evident intent in each case:
  - The v1 and v2 `get_cpu_usage` take a sample interval, but the source wrappers (src/stats/cgroup_v1/mod.rs:45, src/stats/cgroup_v2/mod.rs:38) omit it. `Selection.GetCpuUsage` takes the elapsed time between the two readings as a parameter for each source.
  - src/lib.rs calls `stats::get_num_cpus()` and the other getters with no arguments.
  - `run_acolyte` takes no `Config` while src/main.rs passes one, and src/main.rs imports `config`/`consts` modules that src/lib.rs does not declare.
  - `with_filesystem_reader_at` takes `&str` where a `PathBuf` is passed.
  - src/stats/proc/mod.rs refers to names that do not exist (`ResourceType::CPU`, `CpuStats`, `get_cpu_stats`, `mod mem`).
  
  The proc source is modelled as proc/num_cpus.rs `get_num_cpus`, proc/cpu_usage.rs `get_cpu_usage` and proc/memory.rs `get_memory_usage_and_total_kb`, as `Selection` shows.
- **Report.MakeReport:** requires that the CPU usage is not tagged `FromCgroupV1`, because the `match` in src/lib.rs:16-24 has no arm for it. Selecting v1 usage would not compile there.
- **Logging, tracing, Sentry, SIGHUP (`nohup`) and the log formats** are not modelled. Neither is `Config::from_env` with its UUID generation and the interval defaults in src/env.rs; the id and `max_stats_entries` are parameters.
- **Store serialisation.** The JSON serialisation of `StatsEntry` and the writing of the file are left out; only its name is modelled. `ensure_dir_exists` is left out too. `config.stats_dir.unwrap()` panicking on a missing directory is not modelled.
- **Store.Candidates:** file names are taken as text. `to_string_lossy` on names that are not valid UTF-8 is not modelled.
- **Supervisor.Supervise:**
  - `std::env::current_exe()` failing (an `expect` panic outside the caught run) is not modelled.
  - Environment values that are not Unicode are not modelled: `env::var` then fails, which reads as "unset".
  - `exec` is a transition to a fresh process, returned as a `Reexec` action.

## Findings

| source | as written | input that shows it | evidently intended | confidence | as-written member | corrected member |
|---|---|---|---|---|---|---|
| src/main.rs:70-78 | `restart_count + 1` is computed in `u8`; in a release build 255 + 1 wraps to 0, which is below `MAX_RUN_ATTEMPTS`, so the agent re-executes with a fresh budget (a debug build panics at src/main.rs:53 instead) | `ACOLYTE_RESTART=255` and a run that panics | a crash at or beyond the attempt limit ends the process with exit 1 | low, not executed | Supervisor.SuperviseAsWritten | Supervisor.Supervise |
