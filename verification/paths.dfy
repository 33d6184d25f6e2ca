/** Cgroup discovery: the cgroup2 mount point and the v1 controller mount
    points from `/proc/mounts`, and the version classification from the
    line count of `/proc/self/cgroup`. Each reader takes the file's whole
    text, or the error opening it gave. */
module Paths {
  import opened Results
  import opened Text
  import opened Stats
  import opened CgroupV1

  /** Field positions in a `/proc/mounts` line. */
  const MOUNT_POINT_INDEX: nat := 1
  const FILESYSTEM_TYPE_INDEX: nat := 2
  const FILESYSTEM_OPTIONS_INDEX: nat := 3

  const NO_V2_MOUNT_MESSAGE: string := "No cgroup v2 mount point found"
  const INVALID_SELF_CGROUP_PREFIX: string := "Invalid proc self cgroup file format: "

  // ------------------------------------------------------------- cgroup v2

  /** A mounts line with at least three fields whose type is exactly `cgroup2`. */
  predicate IsV2MountLine(line: string) {
    var parts := Tokens(line);
    |parts| >= FILESYSTEM_TYPE_INDEX + 1 && parts[FILESYSTEM_TYPE_INDEX] == "cgroup2"
  }

  /** The mount point a line names, when it is a `cgroup2` line. */
  function V2MountPointOf(line: string): (r: Option<string>)
    ensures r.Some? <==> IsV2MountLine(line)
  {
    if IsV2MountLine(line) then Some(Tokens(line)[MOUNT_POINT_INDEX]) else None
  }

  /** `get_cgroup_v2_mount_point`: the mount point of the first `cgroup2`
      line, `NotFound` when there is none, the read error when the file
      cannot be read. */
  function GetCgroupV2MountPoint(content: Result<string>): (r: Result<string>)
    ensures content.Err? ==> r == Err(content.error)
    ensures content.Ok? && r.Err? ==> r.error == IoError(NotFound, NO_V2_MOUNT_MESSAGE)
    ensures content.Ok? ==> (r.Err? <==> forall l :: l in Lines(content.value) ==> !IsV2MountLine(l))
  {
    match content
    case Err(e) => Err(e)
    case Ok(text) =>
      match FirstSome(Lines(text), V2MountPointOf)
      case None => Err(IoError(NotFound, NO_V2_MOUNT_MESSAGE))
      case Some(p) => Ok(p)
  }

  /** The answer is field 1 of the FIRST `cgroup2` line, whatever follows it. */
  lemma V2MountPointIsFirst(text: string, i: nat)
    requires i < |Lines(text)| && IsV2MountLine(Lines(text)[i])
    requires forall j :: 0 <= j < i ==> !IsV2MountLine(Lines(text)[j])
    ensures GetCgroupV2MountPoint(Ok(text)) == Ok(Tokens(Lines(text)[i])[MOUNT_POINT_INDEX])
  {
    FirstSomeAt(Lines(text), V2MountPointOf, i);
  }

  // ------------------------------------------------------------- cgroup v1

  /** The option naming each controller in a v1 mounts line. */
  function ControllerName(c: Controller): string {
    match c
    case Cpu => "cpu"
    case CpuAcct => "cpuacct"
    case Memory => "memory"
  }

  /** A mounts line with at least four fields whose type is exactly `cgroup`. */
  predicate IsV1MountLine(line: string) {
    var parts := Tokens(line);
    |parts| >= FILESYSTEM_OPTIONS_INDEX + 1 && parts[FILESYSTEM_TYPE_INDEX] == "cgroup"
  }

  /** A v1 line mounts the controller when the controller's name is one of
      its comma-separated options, compared whole (so `cpuacct` does not
      mount `cpu`). */
  predicate Mounts(line: string, c: Controller) {
    IsV1MountLine(line) && ControllerName(c) in Split(Tokens(line)[FILESYSTEM_OPTIONS_INDEX], ',')
  }

  function MountPointOf(line: string): string
    requires IsV1MountLine(line)
  {
    Tokens(line)[MOUNT_POINT_INDEX]
  }

  /** One iteration of the scan: every controller the line mounts is set
      to the line's mount point, the others are left alone. */
  function ApplyV1Line(mp: CgroupV1MountPoints, line: string): (r: CgroupV1MountPoints)
    ensures forall c :: r.Get(c) == if Mounts(line, c) then Some(MountPointOf(line)) else mp.Get(c)
  {
    if !IsV1MountLine(line) then mp
    else
      var options := Split(Tokens(line)[FILESYSTEM_OPTIONS_INDEX], ',');
      var point := Tokens(line)[MOUNT_POINT_INDEX];
      var withCpu := if "cpu" in options then mp.Set(Cpu, point) else mp;
      var withCpuAcct := if "cpuacct" in options then withCpu.Set(CpuAcct, point) else withCpu;
      if "memory" in options then withCpuAcct.Set(Memory, point) else withCpuAcct
  }

  /** The mount points after the loop has consumed `lines`, from the
      all-`None` default. */
  function ScanV1(lines: seq<string>): CgroupV1MountPoints {
    if lines == [] then NO_MOUNT_POINTS
    else ApplyV1Line(ScanV1(lines[..|lines| - 1]), lines[|lines| - 1])
  }

  /** Reference reading: the mount point of the LAST line that mounts the
      controller. */
  function LastMountOf(lines: seq<string>, c: Controller): (r: Option<string>)
    ensures r.None? <==> forall i :: 0 <= i < |lines| ==> !Mounts(lines[i], c)
  {
    if lines == [] then None
    else if Mounts(lines[|lines| - 1], c) then Some(MountPointOf(lines[|lines| - 1]))
    else
      var r := LastMountOf(lines[..|lines| - 1], c);
      assert forall i :: 0 <= i < |lines| - 1 ==> lines[i] == lines[..|lines| - 1][i];
      r
  }

  /** The scan keeps, for every controller, the last line that mounts it:
      assignment is unconditional, so later lines overwrite earlier ones,
      and a controller no line mounts stays `None`. */
  lemma {:induction false} ScanV1IsLastMount(lines: seq<string>, c: Controller)
    ensures ScanV1(lines).Get(c) == LastMountOf(lines, c)
  {
    if lines != [] {
      ScanV1IsLastMount(lines[..|lines| - 1], c);
    }
  }

  /** The last line to mount `c` is found wherever it sits. */
  lemma {:induction false} LastMountAt(lines: seq<string>, c: Controller, i: nat)
    requires i < |lines| && Mounts(lines[i], c)
    requires forall j :: i < j < |lines| ==> !Mounts(lines[j], c)
    ensures LastMountOf(lines, c) == Some(MountPointOf(lines[i]))
  {
    if i < |lines| - 1 {
      var front := lines[..|lines| - 1];
      assert front[i] == lines[i];
      forall j | i < j < |front| ensures !Mounts(front[j], c) {
        assert front[j] == lines[j];
      }
      LastMountAt(front, c, i);
    }
  }

  /** `get_cgroup_v1_mount_points`: never fails for lack of controllers,
      only when the file cannot be read. */
  function GetCgroupV1MountPoints(content: Result<string>): (r: Result<CgroupV1MountPoints>)
    ensures content.Err? ==> r == Err(content.error)
    ensures content.Ok? ==> r.Ok? && forall c :: r.value.Get(c) == LastMountOf(Lines(content.value), c)
  {
    match content
    case Err(e) => Err(e)
    case Ok(text) =>
      forall c ensures ScanV1(Lines(text)).Get(c) == LastMountOf(Lines(text), c) {
        ScanV1IsLastMount(Lines(text), c);
      }
      Ok(ScanV1(Lines(text)))
  }

  /** A controller no line mounts is left `None`. */
  lemma UnmountedStaysNone(content: string, c: Controller)
    requires forall l :: l in Lines(content) ==> !Mounts(l, c)
    ensures GetCgroupV1MountPoints(Ok(content)).value.Get(c) == None
  {
  }

  /** Co-mounted controllers: when the last line mounting `cpu` also
      mounts `cpuacct` and no later line mounts `cpuacct`, both slots hold
      the same directory. */
  lemma CoMountedShareMountPoint(content: string, i: nat)
    requires i < |Lines(content)|
    requires Mounts(Lines(content)[i], Cpu) && Mounts(Lines(content)[i], CpuAcct)
    requires forall j :: i < j < |Lines(content)| ==> !Mounts(Lines(content)[j], Cpu) && !Mounts(Lines(content)[j], CpuAcct)
    ensures GetCgroupV1MountPoints(Ok(content)).value.cpu == Some(MountPointOf(Lines(content)[i]))
    ensures GetCgroupV1MountPoints(Ok(content)).value.cpuacct == Some(MountPointOf(Lines(content)[i]))
  {
    LastMountAt(Lines(content), Cpu, i);
    LastMountAt(Lines(content), CpuAcct, i);
  }

  /** A mounts line of six whitespace-separated fields. */
  lemma {:induction false} SixFieldTokens(a: string, b: string, c: string, d: string, e: string, f: string)
    requires IsWord(a) && IsWord(b) && IsWord(c) && IsWord(d) && IsWord(e) && IsWord(f)
    ensures Tokens(a + " " + (b + " " + (c + " " + (d + " " + (e + " " + f))))) == [a, b, c, d, e, f]
  {
    TokensOfWord(f);
    TokensOfWordThenSpace(e, f);
    TokensOfWordThenSpace(d, e + " " + f);
    TokensOfWordThenSpace(c, d + " " + (e + " " + f));
    TokensOfWordThenSpace(b, c + " " + (d + " " + (e + " " + f)));
    TokensOfWordThenSpace(a, b + " " + (c + " " + (d + " " + (e + " " + f))));
  }

  /** The options field of a co-mounted CPU hierarchy: `ro,cpu,cpuacct`. */
  const CO_MOUNTED_OPTIONS: string := "ro" + "," + ("cpu" + "," + "cpuacct")

  /** The `/proc/mounts` line of a read-only v1 hierarchy at `point`. */
  function V1MountsLine(point: string, options: string): string {
    "cgroup" + " " + (point + " " + ("cgroup" + " " + (options + " " + ("0" + " " + "0"))))
  }

  lemma CoMountedTokens(point: string)
    requires IsWord(point)
    ensures Tokens(V1MountsLine(point, CO_MOUNTED_OPTIONS)) == ["cgroup", point, "cgroup", CO_MOUNTED_OPTIONS, "0", "0"]
  {
    var options := CO_MOUNTED_OPTIONS;
    forall i | 0 <= i < |options| ensures !IsWhitespace(options[i]) {
      assert options[i] in "ro,cpu,cpuacct";
    }
    assert IsWord("cgroup") && IsWord("0");
    SixFieldTokens("cgroup", point, "cgroup", options, "0", "0");
  }

  /** A `cgroup` line whose options are `ro,cpu,cpuacct` mounts both CPU
      controllers at its directory, and not the memory controller. */
  lemma CoMountedLine(point: string)
    requires IsWord(point)
    ensures Mounts(V1MountsLine(point, CO_MOUNTED_OPTIONS), Cpu)
    ensures Mounts(V1MountsLine(point, CO_MOUNTED_OPTIONS), CpuAcct)
    ensures !Mounts(V1MountsLine(point, CO_MOUNTED_OPTIONS), Memory)
    ensures MountPointOf(V1MountsLine(point, CO_MOUNTED_OPTIONS)) == point
  {
    var line := V1MountsLine(point, CO_MOUNTED_OPTIONS);
    CoMountedTokens(point);
    assert Tokens(line)[FILESYSTEM_OPTIONS_INDEX] == CO_MOUNTED_OPTIONS;
    SplitOfThree("ro", "cpu", "cpuacct", ',');
    var options := Split(CO_MOUNTED_OPTIONS, ',');
    assert options == ["ro", "cpu", "cpuacct"];
    assert "memory" !in options by {
      assert |"memory"| != |"ro"| && |"memory"| != |"cpu"| && |"memory"| != |"cpuacct"|;
    }
  }

  // ------------------------------------------------------ version detection

  /** `detect_cgroup_version`: no line is malformed input, exactly one line
      is the unified v2 layout, more lines are v1. */
  function DetectCgroupVersion(content: Result<string>): (r: Result<CgroupVersion>)
    ensures content.Err? ==> r == Err(content.error)
    ensures r.Ok? ==> r.value != V1AndV2
    ensures content.Ok? ==> (r.Err? <==> content.value == [])
    ensures content.Ok? && r.Err? ==> r.error == IoError(InvalidData, INVALID_SELF_CGROUP_PREFIX + content.value)
  {
    match content
    case Err(e) => Err(e)
    case Ok(text) =>
      NoLinesIffEmpty(text);
      var n := |Lines(text)|;
      if n == 0 then Err(IoError(InvalidData, INVALID_SELF_CGROUP_PREFIX + text))
      else if n == 1 then Ok(V2)
      else Ok(V1)
  }

  /** The file reads as v2 exactly when it is a single line: non-empty,
      and with no `\n` except possibly a final one. */
  lemma {:induction false} V2IffSingleLine(text: string)
    ensures DetectCgroupVersion(Ok(text)) == Ok(V2) <==>
              text != [] && (Count(text, '\n') == 0 || (Count(text, '\n') == 1 && text[|text| - 1] == '\n'))
  {
    LinesCount(text);
  }

  /** Two `\n`-separated non-empty lines read as v1. */
  lemma {:induction false} TwoLinesIsV1(a: string, b: string)
    requires '\n' !in a && '\n' !in b && b != []
    ensures DetectCgroupVersion(Ok(a + "\n" + b)) == Ok(V1)
  {
    var text := a + "\n" + b;
    LinesCount(text);
    CountAppend(a + "\n", b, '\n');
    CountAppend(a, "\n", '\n');
    CountAbsent(a, '\n');
    CountAbsent(b, '\n');
    assert text[|text| - 1] == b[|b| - 1];
  }

  lemma DetectsSingleLineAsV2()
    ensures DetectCgroupVersion(Ok("0::/")) == Ok(V2)
  {
  }
}
