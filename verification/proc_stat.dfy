/** The `/proc/stat` readers: the per-core line count, the jiffy counters
    of the first (aggregate) line, and the fraction of that time the CPUs
    were busy between two readings. Both generations of the code are
    here: the idle-plus-iowait ratio of `proc/cpu_usage.rs` and the
    idle-only ratio of `proc/cpu.rs` and `proc.rs`. */
module ProcStat {
  import opened Results
  import opened Text
  import opened Numbers
  import opened Stats

  /** Field positions of the aggregate line, after its label. */
  const IDLE_INDEX: nat := 3
  const IOWAIT_INDEX: nat := 4

  const NO_STAT_DATA_MESSAGE: string := "No stat data from proc provider"

  // ---------------------------------------------------------- core count

  /** A per-core line: `cpu` followed by anything but a space, so the
      aggregate `cpu ` line is not one. */
  predicate IsCoreLine(line: string) {
    StartsWith(line, "cpu") && !StartsWith(line, "cpu ")
  }

  /** `get_cpu_count` / the count in `get_num_cpus`: the per-core lines. */
  function CpuCount(lines: seq<string>): (n: nat)
    ensures n <= |lines|
  {
    if lines == [] then 0 else (if IsCoreLine(lines[0]) then 1 else 0) + CpuCount(lines[1..])
  }

  /** Counting distributes over concatenation, so each line counts on its own. */
  lemma {:induction false} CpuCountAppend(a: seq<string>, b: seq<string>)
    ensures CpuCount(a + b) == CpuCount(a) + CpuCount(b)
  {
    if a == [] {
      assert a + b == b;
    } else {
      assert (a + b)[1..] == a[1..] + b;
      CpuCountAppend(a[1..], b);
    }
  }

  /** The aggregate line is never counted, and a numbered one always is. */
  lemma CoreLines(rest: string, n: nat)
    ensures !IsCoreLine("cpu " + rest)
    ensures IsCoreLine("cpu" + NatToString(n) + rest)
  {
    var line := "cpu " + rest;
    assert line[..4] == "cpu ";
    var core := "cpu" + NatToString(n) + rest;
    assert core[..3] == "cpu";
    assert IsDigit(core[3]);
  }

  /** The aggregate line and four numbered ones count four cores. */
  lemma FourCoreLines(total: string, c0: string, c1: string, c2: string, c3: string)
    ensures CpuCount(["cpu " + total, "cpu0" + c0, "cpu1" + c1, "cpu2" + c2, "cpu3" + c3]) == 4
  {
    CoreLines(total, 0);
    CoreLines(c0, 0);
    CoreLines(c1, 1);
    CoreLines(c2, 2);
    CoreLines(c3, 3);
    assert NatToString(0) == "0" && NatToString(1) == "1" && NatToString(2) == "2" && NatToString(3) == "3";
    var cores := ["cpu " + total, "cpu0" + c0, "cpu1" + c1, "cpu2" + c2, "cpu3" + c3];
    assert CpuCount(cores[4..]) == 1;
    assert CpuCount(cores[3..]) == 2 by { assert cores[3..][1..] == cores[4..]; }
    assert CpuCount(cores[2..]) == 3 by { assert cores[2..][1..] == cores[3..]; }
    assert CpuCount(cores[1..]) == 4 by { assert cores[1..][1..] == cores[2..]; }
  }

  /** The interrupt, context-switch and boot-time lines are not cores. */
  lemma OtherLinesNotCores(intr: string, ctxt: string, btime: string)
    ensures CpuCount(["intr" + intr, "ctxt" + ctxt, "btime" + btime]) == 0
  {
    var others := ["intr" + intr, "ctxt" + ctxt, "btime" + btime];
    assert !IsCoreLine(others[0]) by { assert others[0][..3] == "int"; }
    assert !IsCoreLine(others[1]) by { assert others[1][..3] == "ctx"; }
    assert !IsCoreLine(others[2]) by { assert others[2][..3] == "bti"; }
    assert CpuCount(others[2..]) == 0;
    assert CpuCount(others[1..]) == 0 by { assert others[1..][1..] == others[2..]; }
  }

  /** The layout of `/proc/stat` on a four-core host counts four cores,
      whatever the counters say. */
  lemma FourCoreHost(total: string, c0: string, c1: string, c2: string, c3: string, intr: string, ctxt: string, btime: string)
    ensures CpuCount(["cpu " + total, "cpu0" + c0, "cpu1" + c1, "cpu2" + c2, "cpu3" + c3,
                      "intr" + intr, "ctxt" + ctxt, "btime" + btime]) == 4
  {
    var cores := ["cpu " + total, "cpu0" + c0, "cpu1" + c1, "cpu2" + c2, "cpu3" + c3];
    var others := ["intr" + intr, "ctxt" + ctxt, "btime" + btime];
    FourCoreLines(total, c0, c1, c2, c3);
    OtherLinesNotCores(intr, ctxt, btime);
    CpuCountAppend(cores, others);
    assert cores + others == ["cpu " + total, "cpu0" + c0, "cpu1" + c1, "cpu2" + c2, "cpu3" + c3,
                              "intr" + intr, "ctxt" + ctxt, "btime" + btime];
  }

  /** `proc/num_cpus.rs` `get_num_cpus`: the count as an `f64`, never an
      error once the lines are read. */
  function GetNumCpus(lines: Result<seq<string>>): (r: Result<F64>)
    ensures lines.Err? ==> r == Err(lines.error)
    ensures lines.Ok? ==> r.Ok? && r.value.Finite? && r.value.value == CpuCount(lines.value) as real
    ensures r.Ok? ==> 0.0 <= r.value.value <= |lines.value| as real
  {
    match lines
    case Err(e) => Err(e)
    case Ok(ls) => Ok(Finite(CpuCount(ls) as real))
  }

  // ------------------------------------------------------------- jiffies

  /** `filter_map(parse::<u64>)`: the words that are `u64`s, in order. */
  function ParsedNumbers(words: seq<string>): (r: seq<nat>)
    ensures |r| <= |words|
    ensures forall k :: 0 <= k < |r| ==> r[k] < U64_LIMIT
  {
    if words == [] then []
    else
      (match ParseU64(words[0]) case Some(v) => [v] case None => []) + ParsedNumbers(words[1..])
  }

  /** Numbers written in decimal. */
  function Decimals(xs: seq<nat>): (r: seq<string>)
    ensures |r| == |xs|
    ensures forall k :: 0 <= k < |r| ==> r[k] == NatToString(xs[k])
  {
    if xs == [] then [] else [NatToString(xs[0])] + Decimals(xs[1..])
  }

  /** Parsing undoes writing in decimal. */
  lemma {:induction false} ParsedNumbersOfDecimals(xs: seq<nat>)
    requires forall k :: 0 <= k < |xs| ==> xs[k] < U64_LIMIT
    ensures ParsedNumbers(Decimals(xs)) == xs
  {
    if xs != [] {
      ParseOfNatToString(xs[0], U64_LIMIT);
      assert Decimals(xs)[1..] == Decimals(xs[1..]);
      ParsedNumbersOfDecimals(xs[1..]);
    }
  }

  /** The counters of a `/proc/stat` line: every word after the label
      that is a `u64`. */
  function JiffiesOf(line: string): (r: seq<nat>)
    ensures |r| < |Tokens(line)| || (r == [] && Tokens(line) == [])
  {
    var words := Tokens(line);
    if words == [] then [] else ParsedNumbers(words[1..])
  }

  /** Numbers written in decimal are words: no whitespace, never empty. */
  lemma DecimalsAreWords(xs: seq<nat>)
    ensures forall t :: t in Decimals(xs) ==> IsWord(t)
  {
    var ds := Decimals(xs);
    forall t | t in ds ensures IsWord(t) {
      var k :| 0 <= k < |ds| && ds[k] == t;
      var s := NatToString(xs[k]);
      forall i | 0 <= i < |s| ensures !IsWhitespace(s[i]) {
        assert IsDigit(s[i]);
      }
    }
  }

  /** A line as the kernel writes it, a label and decimal counters
      separated by spaces, reads back as its counters. */
  lemma JiffiesOfWrittenLine(name: string, xs: seq<nat>)
    requires IsWord(name)
    requires forall k :: 0 <= k < |xs| ==> xs[k] < U64_LIMIT
    ensures JiffiesOf(name + " " + Unwords(Decimals(xs))) == xs
  {
    var ds := Decimals(xs);
    DecimalsAreWords(xs);
    TokensOfWordThenSpace(name, Unwords(ds));
    TokensOfUnwords(ds);
    assert Tokens(name + " " + Unwords(ds))[1..] == ds;
    ParsedNumbersOfDecimals(xs);
  }

  /** `get_total_cpu_jiffies`: the counters of the first line only; no
      line at all is `InvalidData`. */
  function TotalCpuJiffies(lines: Result<seq<string>>): (r: Result<seq<nat>>)
    ensures lines.Err? ==> r == Err(lines.error)
    ensures lines.Ok? ==> (r.Err? <==> lines.value == [])
    ensures lines.Ok? && r.Err? ==> r.error == IoError(InvalidData, NO_STAT_DATA_MESSAGE)
  {
    match lines
    case Err(e) => Err(e)
    case Ok(ls) => if ls == [] then Err(IoError(InvalidData, NO_STAT_DATA_MESSAGE)) else Ok(JiffiesOf(ls[0]))
  }

  /** The lines after the first never change the reading. */
  lemma JiffiesFromFirstLineOnly(first: string, rest: seq<string>)
    ensures TotalCpuJiffies(Ok([first] + rest)) == Ok(JiffiesOf(first))
  {
    var lines := [first] + rest;
    assert lines != [] && lines[0] == first;
  }

  /** `read_cpu_stat` in `proc.rs`: the counters of the file's first line
      as `read_line` returns it; an empty file reads as no counters
      rather than as an error. */
  function ReadCpuStat(content: Result<string>): (r: Result<seq<nat>>)
    ensures content.Err? ==> r == Err(content.error)
    ensures content.Ok? ==> r.Ok?
    ensures content == Ok([]) ==> r == Ok([])
  {
    match content
    case Err(e) => Err(e)
    case Ok(text) => Ok(JiffiesOf(FirstLine(text)))
  }

  /** On a non-empty file the older reader agrees with the newer one over
      the file's lines; they differ only on the empty file. */
  lemma ReadCpuStatAgrees(text: string)
    ensures text != [] ==> ReadCpuStat(Ok(text)) == TotalCpuJiffies(Ok(Lines(text)))
    ensures text == [] ==> ReadCpuStat(Ok(text)).Ok? && TotalCpuJiffies(Ok(Lines(text))).Err?
  {
    if text != [] {
      NoLinesIffEmpty(text);
      TokensOfFirstLine(text);
    }
  }

  // ---------------------------------------------------------- busy ratio

  function Sum(xs: seq<nat>): nat {
    if xs == [] then 0 else xs[0] + Sum(xs[1..])
  }

  lemma {:induction false} SumAppend(a: seq<nat>, b: seq<nat>)
    ensures Sum(a + b) == Sum(a) + Sum(b)
  {
    if a == [] {
      assert a + b == b;
    } else {
      assert (a + b)[1..] == a[1..] + b;
      SumAppend(a[1..], b);
    }
  }

  /** Counters that did not go backwards. */
  predicate NonDecreasing(initial: seq<nat>, current: seq<nat>) {
    |initial| == |current| && forall k :: 0 <= k < |initial| ==> initial[k] <= current[k]
  }

  /** Over counters that did not go backwards, the total advanced by at
      least as much as any slice of them. */
  lemma {:induction false} SliceAdvanceBounded(initial: seq<nat>, current: seq<nat>, a: nat, b: nat)
    requires NonDecreasing(initial, current)
    requires a <= b <= |initial|
    ensures Sum(initial[a..b]) <= Sum(current[a..b])
    ensures Sum(current[a..b]) - Sum(initial[a..b]) <= Sum(current) - Sum(initial)
  {
    var n := |initial|;
    assert initial == initial[..a] + initial[a..b] + initial[b..];
    assert current == current[..a] + current[a..b] + current[b..];
    SumAppend(initial[..a] + initial[a..b], initial[b..]);
    SumAppend(initial[..a], initial[a..b]);
    SumAppend(current[..a] + current[a..b], current[b..]);
    SumAppend(current[..a], current[a..b]);
    SumBelow(initial[..a], current[..a]);
    SumBelow(initial[a..b], current[a..b]);
    SumBelow(initial[b..], current[b..]);
  }

  lemma {:induction false} SumBelow(initial: seq<nat>, current: seq<nat>)
    requires NonDecreasing(initial, current)
    ensures Sum(initial) <= Sum(current)
  {
    if initial != [] {
      SumBelow(initial[1..], current[1..]);
    }
  }

  lemma RatioInUnitInterval(v: nat, t: nat)
    requires 0 < t && v <= t
    ensures 0.0 <= 1.0 - v as real / t as real <= 1.0
  {
  }

  /** `calculate_cpu_usage`: the share of the elapsed jiffies the CPUs
      were not vacant, where the vacant fields are those from idle up to
      `minLen`. A reading shorter than `minLen`, readings of different
      lengths, or a total that did not advance give 0. */
  function BusyFraction(initial: seq<nat>, current: seq<nat>, minLen: nat): (r: real)
    requires IDLE_INDEX < minLen
    ensures |initial| < minLen || |current| < minLen || |initial| != |current| ==> r == 0.0
    ensures Sum(current) <= Sum(initial) ==> r == 0.0
    ensures r <= 1.0
    // scaled by the elapsed total, the fraction is the elapsed time less the vacant time
    ensures minLen <= |initial| == |current| && Sum(initial) < Sum(current) ==>
              r * (Sum(current) - Sum(initial)) as real
              == (Sum(current) - Sum(initial)) as real
                 - SaturatingSub(Sum(current[IDLE_INDEX..minLen]), Sum(initial[IDLE_INDEX..minLen])) as real
    // no vacant time elapsed: busy throughout
    ensures minLen <= |initial| == |current| && Sum(initial) < Sum(current)
              && Sum(current[IDLE_INDEX..minLen]) <= Sum(initial[IDLE_INDEX..minLen])
            ==> r == 1.0
  {
    if |initial| < minLen || |current| < minLen || |initial| != |current| then 0.0
    else
      var totalDelta := SaturatingSub(Sum(current), Sum(initial));
      if totalDelta == 0 then 0.0
      else
        var vacantDelta := SaturatingSub(Sum(current[IDLE_INDEX..minLen]), Sum(initial[IDLE_INDEX..minLen]));
        QuotientNonNegative(vacantDelta as real, totalDelta as real);
        BusyTimesTotal(vacantDelta, totalDelta);
        1.0 - vacantDelta as real / totalDelta as real
  }

  lemma BusyTimesTotal(v: nat, t: nat)
    requires t > 0
    ensures (1.0 - v as real / t as real) * t as real == t as real - v as real
    ensures v == 0 ==> 1.0 - v as real / t as real == 1.0
  {
    assert (v as real / t as real) * t as real == v as real;
  }

  /** When no counter went backwards and the total advanced, the busy
      fraction is a proper fraction: it lies in [0, 1]. */
  lemma BusyFractionIsFraction(initial: seq<nat>, current: seq<nat>, minLen: nat)
    requires IDLE_INDEX < minLen
    ensures NonDecreasing(initial, current) ==> 0.0 <= BusyFraction(initial, current, minLen) <= 1.0
  {
    if NonDecreasing(initial, current) && minLen <= |initial| && Sum(initial) < Sum(current) {
      SliceAdvanceBounded(initial, current, IDLE_INDEX, minLen);
      var totalDelta := Sum(current) - Sum(initial);
      var vacantDelta := Sum(current[IDLE_INDEX..minLen]) - Sum(initial[IDLE_INDEX..minLen]);
      RatioInUnitInterval(vacantDelta, totalDelta);
    }
  }

  /** The vacant fields of a reading: idle and iowait. */
  lemma VacantFields(xs: seq<nat>)
    requires |xs| > IOWAIT_INDEX
    ensures Sum(xs[IDLE_INDEX..IOWAIT_INDEX + 1]) == xs[IDLE_INDEX] + xs[IOWAIT_INDEX]
  {
    var pair := xs[IDLE_INDEX..IOWAIT_INDEX + 1];
    assert pair[0] == xs[IDLE_INDEX] && pair[1..] == [xs[IOWAIT_INDEX]];
    assert Sum([xs[IOWAIT_INDEX]]) == xs[IOWAIT_INDEX] by { assert [xs[IOWAIT_INDEX]][1..] == []; }
  }

  /** The vacant field of a reading when idle alone counts. */
  lemma IdleField(xs: seq<nat>)
    requires |xs| > IDLE_INDEX
    ensures Sum(xs[IDLE_INDEX..IDLE_INDEX + 1]) == xs[IDLE_INDEX]
  {
    assert xs[IDLE_INDEX..IDLE_INDEX + 1][1..] == [];
  }

  /** `proc/cpu_usage.rs`: vacant time is idle plus iowait, so at least
      five counters are needed. */
  function CalculateCpuUsage(initial: seq<nat>, current: seq<nat>): (r: real)
    ensures |initial| <= IOWAIT_INDEX || |current| <= IOWAIT_INDEX || |initial| != |current| ==> r == 0.0
    ensures Sum(current) <= Sum(initial) ==> r == 0.0
    ensures NonDecreasing(initial, current) ==> 0.0 <= r <= 1.0
    // 1 - (idle + iowait advance) / (total advance), the vacant advance saturating at 0
    ensures |initial| == |current| > IOWAIT_INDEX && Sum(initial) < Sum(current) ==>
              r * (Sum(current) - Sum(initial)) as real
              == (Sum(current) - Sum(initial)) as real
                 - SaturatingSub(current[IDLE_INDEX] + current[IOWAIT_INDEX],
                                 initial[IDLE_INDEX] + initial[IOWAIT_INDEX]) as real
  {
    BusyFractionIsFraction(initial, current, IOWAIT_INDEX + 1);
    if |initial| == |current| > IOWAIT_INDEX then
      VacantFields(initial);
      VacantFields(current);
      BusyFraction(initial, current, IOWAIT_INDEX + 1)
    else BusyFraction(initial, current, IOWAIT_INDEX + 1)
  }

  /** `proc/cpu.rs` and `proc.rs`: vacant time is idle alone, so four
      counters suffice. */
  function CalculateIdleCpuUsage(initial: seq<nat>, current: seq<nat>): (r: real)
    ensures |initial| <= IDLE_INDEX || |current| <= IDLE_INDEX || |initial| != |current| ==> r == 0.0
    ensures Sum(current) <= Sum(initial) ==> r == 0.0
    ensures NonDecreasing(initial, current) ==> 0.0 <= r <= 1.0
    // 1 - (idle advance) / (total advance), the idle advance saturating at 0
    ensures |initial| == |current| > IDLE_INDEX && Sum(initial) < Sum(current) ==>
              r * (Sum(current) - Sum(initial)) as real
              == (Sum(current) - Sum(initial)) as real - SaturatingSub(current[IDLE_INDEX], initial[IDLE_INDEX]) as real
  {
    BusyFractionIsFraction(initial, current, IDLE_INDEX + 1);
    if |initial| == |current| > IDLE_INDEX then
      IdleField(initial);
      IdleField(current);
      BusyFraction(initial, current, IDLE_INDEX + 1)
    else BusyFraction(initial, current, IDLE_INDEX + 1)
  }

  /** A product with a positive total that equals the total, or zero, pins
      the fraction to 1 or 0. */
  lemma FractionOfTotal(r: real, t: nat, v: nat)
    requires t > 0 && r * t as real == t as real - v as real
    ensures v == 0 ==> r == 1.0
    ensures v == t ==> r == 0.0
  {
  }

  /** Idle and iowait did not advance (or went backwards): the CPUs were
      busy the whole interval. */
  lemma NoVacancyIsFullyBusy(initial: seq<nat>, current: seq<nat>)
    requires |initial| == |current| > IOWAIT_INDEX && Sum(initial) < Sum(current)
    requires current[IDLE_INDEX] + current[IOWAIT_INDEX] <= initial[IDLE_INDEX] + initial[IOWAIT_INDEX]
    ensures CalculateCpuUsage(initial, current) == 1.0
  {
    VacantFields(initial);
    VacantFields(current);
    assert SaturatingSub(Sum(current[IDLE_INDEX..IOWAIT_INDEX + 1]), Sum(initial[IDLE_INDEX..IOWAIT_INDEX + 1])) == 0;
  }

  /** Idle did not advance (or went backwards): busy the whole interval. */
  lemma NoIdleIsFullyBusy(initial: seq<nat>, current: seq<nat>)
    requires |initial| == |current| > IDLE_INDEX && Sum(initial) < Sum(current)
    requires current[IDLE_INDEX] <= initial[IDLE_INDEX]
    ensures CalculateIdleCpuUsage(initial, current) == 1.0
  {
    IdleField(initial);
    IdleField(current);
    assert SaturatingSub(Sum(current[IDLE_INDEX..IDLE_INDEX + 1]), Sum(initial[IDLE_INDEX..IDLE_INDEX + 1])) == 0;
  }

  /** The counters outside `[a, b)` agree, so the totals differ by the
      slice's difference. */
  lemma {:induction false} OnlySliceAdvanced(initial: seq<nat>, current: seq<nat>, a: nat, b: nat)
    requires |initial| == |current| && a <= b <= |initial|
    requires forall k :: 0 <= k < |initial| && (k < a || b <= k) ==> initial[k] == current[k]
    ensures Sum(current) + Sum(initial[a..b]) == Sum(initial) + Sum(current[a..b])
  {
    assert initial[..a] == current[..a];
    assert initial[b..] == current[b..];
    assert initial == initial[..a] + initial[a..b] + initial[b..];
    assert current == current[..a] + current[a..b] + current[b..];
    SumAppend(initial[..a] + initial[a..b], initial[b..]);
    SumAppend(initial[..a], initial[a..b]);
    SumAppend(current[..a] + current[a..b], current[b..]);
    SumAppend(current[..a], current[a..b]);
  }

  /** Only idle and iowait advanced: the CPUs were vacant the whole
      interval, so the usage is 0. */
  lemma OnlyVacancyIsIdle(initial: seq<nat>, current: seq<nat>)
    requires |initial| == |current| > IOWAIT_INDEX
    requires forall k :: 0 <= k < |initial| && k != IDLE_INDEX && k != IOWAIT_INDEX ==> initial[k] == current[k]
    requires initial[IDLE_INDEX] + initial[IOWAIT_INDEX] < current[IDLE_INDEX] + current[IOWAIT_INDEX]
    ensures CalculateCpuUsage(initial, current) == 0.0
  {
    OnlySliceAdvanced(initial, current, IDLE_INDEX, IOWAIT_INDEX + 1);
    VacantFields(initial);
    VacantFields(current);
    FractionOfTotal(CalculateCpuUsage(initial, current), Sum(current) - Sum(initial),
                    SaturatingSub(current[IDLE_INDEX] + current[IOWAIT_INDEX], initial[IDLE_INDEX] + initial[IOWAIT_INDEX]));
  }

  /** Only idle advanced: the usage is 0. */
  lemma OnlyIdleIsIdle(initial: seq<nat>, current: seq<nat>)
    requires |initial| == |current| > IDLE_INDEX
    requires forall k :: 0 <= k < |initial| && k != IDLE_INDEX ==> initial[k] == current[k]
    requires initial[IDLE_INDEX] < current[IDLE_INDEX]
    ensures CalculateIdleCpuUsage(initial, current) == 0.0
  {
    OnlySliceAdvanced(initial, current, IDLE_INDEX, IDLE_INDEX + 1);
    IdleField(initial);
    IdleField(current);
    FractionOfTotal(CalculateIdleCpuUsage(initial, current), Sum(current) - Sum(initial),
                    SaturatingSub(current[IDLE_INDEX], initial[IDLE_INDEX]));
  }

  /** 150 jiffies passed, 40 idle and 50 waiting for I/O: 0.4 busy counting
      iowait as vacant, 11/15 (about 0.7333) counting idle alone. */
  lemma UsageFixture()
    ensures CalculateCpuUsage([100, 200, 300, 400, 500], [110, 220, 330, 440, 550]) == 0.4
    ensures CalculateIdleCpuUsage([100, 200, 300, 400, 500], [110, 220, 330, 440, 550]) == 11.0 / 15.0
  {
    var initial: seq<nat> := [100, 200, 300, 400, 500];
    var current: seq<nat> := [110, 220, 330, 440, 550];
    assert Sum(initial) == 1500;
    assert Sum(current) == 1650;
    assert initial[3..5] == [400, 500] && current[3..5] == [440, 550];
    assert Sum(initial[3..5]) == 900 && Sum(current[3..5]) == 990;
    assert initial[3..4] == [400] && current[3..4] == [440];
    assert Sum(initial[3..4]) == 400 && Sum(current[3..4]) == 440;
  }

  /** Fewer counters than the ratio needs read as idle. */
  lemma ShortReadingIsIdle(initial: seq<nat>, current: seq<nat>)
    requires |initial| == 4 && |current| == 4
    ensures CalculateCpuUsage(initial, current) == 0.0
  {
  }

  /** `proc/cpu_usage.rs` `get_cpu_usage` after its two readings: a failed
      reading is passed on (the first one first); otherwise the busy
      fraction, tagged `FromProc`. */
  function GetCpuUsage(initial: Result<seq<string>>, current: Result<seq<string>>): (r: Result<CpuUsageValue>)
    ensures initial.Err? ==> r == Err(initial.error)
    ensures r.Ok? <==> TotalCpuJiffies(initial).Ok? && TotalCpuJiffies(current).Ok?
    ensures r.Ok? ==> r.value.FromProc?
    ensures r.Ok? && NonDecreasing(TotalCpuJiffies(initial).value, TotalCpuJiffies(current).value) ==>
              0.0 <= r.value.usage <= 1.0
  {
    match TotalCpuJiffies(initial)
    case Err(e) => Err(e)
    case Ok(start) =>
      match TotalCpuJiffies(current)
      case Err(e) => Err(e)
      case Ok(end) => Ok(FromProc(CalculateCpuUsage(start, end)))
  }

  /** The aggregate line as the kernel writes it. */
  function AggregateLine(xs: seq<nat>): string {
    "cpu " + Unwords(Decimals(xs))
  }

  /** Two readings of written counters give the busy fraction between them. */
  lemma ReadsWrittenReadings(xs: seq<nat>, ys: seq<nat>, rest1: seq<string>, rest2: seq<string>)
    requires forall k :: 0 <= k < |xs| ==> xs[k] < U64_LIMIT
    requires forall k :: 0 <= k < |ys| ==> ys[k] < U64_LIMIT
    ensures GetCpuUsage(Ok([AggregateLine(xs)] + rest1), Ok([AggregateLine(ys)] + rest2))
            == Ok(FromProc(CalculateCpuUsage(xs, ys)))
  {
    assert IsWord("cpu");
    assert "cpu " == "cpu" + " ";
    JiffiesOfWrittenLine("cpu", xs);
    JiffiesOfWrittenLine("cpu", ys);
    JiffiesFromFirstLineOnly(AggregateLine(xs), rest1);
    JiffiesFromFirstLineOnly(AggregateLine(ys), rest2);
  }

  /** `/proc/stat` read twice: 150 jiffies passed, 90 of them idle or
      waiting for I/O, so the CPUs were 0.4 busy. */
  lemma ReadsBusyShare(rest1: seq<string>, rest2: seq<string>)
    ensures GetCpuUsage(Ok([AggregateLine([100, 200, 300, 400, 500])] + rest1),
                        Ok([AggregateLine([110, 220, 330, 440, 550])] + rest2))
            == Ok(FromProc(0.4))
  {
    ReadsWrittenReadings([100, 200, 300, 400, 500], [110, 220, 330, 440, 550], rest1, rest2);
    UsageFixture();
  }

  // ----------------------------------------------------------- cpu stats

  /** The pair `get_cpu_stats` returns. */
  datatype CpuStats = CpuStats(cpuUsage: real, numCpus: real)

  /** A busy fraction scaled by a core count: 1.0 is one busy core. */
  function Scaled(fraction: real, n: nat): (s: CpuStats)
    ensures s.numCpus == n as real
    ensures s.cpuUsage == fraction * s.numCpus
    ensures 0.0 <= fraction <= 1.0 ==> 0.0 <= s.cpuUsage <= s.numCpus
  {
    ScaledFractionBounded(fraction, n as real);
    CpuStats(fraction * n as real, n as real)
  }

  lemma ScaledFractionBounded(f: real, n: real)
    requires 0.0 <= n
    ensures 0.0 <= f <= 1.0 ==> 0.0 <= f * n <= n
  {
  }

  /** `get_cpu_stats` after its three reads (two readings, then the core
      count): the first failure is passed on; otherwise the idle-only busy
      fraction scaled by the core count. */
  function ScaleCpuStats(initial: Result<seq<nat>>, current: Result<seq<nat>>, count: Result<nat>): (r: Result<CpuStats>)
    ensures initial.Err? ==> r == Err(initial.error)
    ensures initial.Ok? && current.Err? ==> r == Err(current.error)
    ensures r.Ok? <==> initial.Ok? && current.Ok? && count.Ok?
    ensures r.Ok? ==> r.value == Scaled(CalculateIdleCpuUsage(initial.value, current.value), count.value)
    ensures r.Ok? ==> r.value.numCpus == count.value as real
    ensures r.Ok? && NonDecreasing(initial.value, current.value) ==> 0.0 <= r.value.cpuUsage <= r.value.numCpus
  {
    match initial
    case Err(e) => Err(e)
    case Ok(start) =>
      match current
      case Err(e) => Err(e)
      case Ok(end) =>
        match count
        case Err(e) => Err(e)
        case Ok(n) => Ok(Scaled(CalculateIdleCpuUsage(start, end), n))
  }

  /** `proc/cpu.rs` `get_cpu_stats`: `/proc/stat` read three times. */
  function GetCpuStats(first: Result<seq<string>>, second: Result<seq<string>>, third: Result<seq<string>>): (r: Result<CpuStats>)
    ensures r.Ok? <==> TotalCpuJiffies(first).Ok? && TotalCpuJiffies(second).Ok? && third.Ok?
    ensures r.Ok? ==> r.value == Scaled(CalculateIdleCpuUsage(TotalCpuJiffies(first).value, TotalCpuJiffies(second).value),
                                        CpuCount(third.value))
  {
    var count: Result<nat> := match third case Err(e) => Err(e) case Ok(ls) => Ok(CpuCount(ls));
    ScaleCpuStats(TotalCpuJiffies(first), TotalCpuJiffies(second), count)
  }

  /** `proc.rs` `get_cpu_stats`: the same, over the file's text. */
  function LegacyGetCpuStats(first: Result<string>, second: Result<string>, third: Result<string>): (r: Result<CpuStats>)
    ensures r.Ok? <==> first.Ok? && second.Ok? && third.Ok?
    ensures r.Ok? ==> r.value == Scaled(CalculateIdleCpuUsage(ReadCpuStat(first).value, ReadCpuStat(second).value),
                                        CpuCount(Lines(third.value)))
  {
    var count: Result<nat> := match third case Err(e) => Err(e) case Ok(text) => Ok(CpuCount(Lines(text)));
    ScaleCpuStats(ReadCpuStat(first), ReadCpuStat(second), count)
  }

  /** On non-empty files the two generations of `get_cpu_stats` agree. */
  lemma LegacyCpuStatsAgrees(first: string, second: string, third: string)
    requires first != [] && second != []
    ensures LegacyGetCpuStats(Ok(first), Ok(second), Ok(third)) == GetCpuStats(Ok(Lines(first)), Ok(Lines(second)), Ok(Lines(third)))
  {
    ReadCpuStatAgrees(first);
    ReadCpuStatAgrees(second);
  }
}
