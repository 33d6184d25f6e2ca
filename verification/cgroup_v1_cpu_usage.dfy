/** CPU usage from cgroup v1: `cpuacct.usage` holds the nanoseconds of
    CPU time the group has used; two readings over a known wall-clock
    interval give the number of busy cores. */
module CgroupV1CpuUsage {
  import opened Results
  import opened Text
  import opened Numbers
  import opened Stats

  const INVALID_USAGE_PREFIX: string := "Invalid cpuacct.usage format: "
  const ZERO_ELAPSED_MESSAGE: string := "Elapsed time between CPU measurements was zero or negative"

  /** `get_cpu_usage_ns`: the trimmed text of `cpuacct.usage` as a `u64`;
      anything else is `InvalidData`, and a failed read is passed on. */
  function GetCpuUsageNs(text: Result<string>): (r: Result<nat>)
    ensures text.Err? ==> r == Err(text.error)
    ensures text.Ok? ==> (r.Ok? <==> ParseU64(Trim(text.value)).Some?)
    ensures r.Ok? ==> r.value < U64_LIMIT && Trim(text.value) != []
    ensures text.Ok? && r.Err? ==> r.error.kind == InvalidData && StartsWith(r.error.message, INVALID_USAGE_PREFIX)
    ensures text.Ok? && r.Err? ==>
              r.error.message == INVALID_USAGE_PREFIX + IntErrorMessage(IntErrorOf(Trim(text.value), U64_LIMIT))
  {
    match text
    case Err(e) => Err(e)
    case Ok(t) =>
      match ParseU64(Trim(t))
      case Some(ns) => Ok(ns)
      case None => Err(IoError(InvalidData, INVALID_USAGE_PREFIX + IntErrorMessage(IntErrorOf(Trim(t), U64_LIMIT))))
  }

  /** The file as the kernel writes it, a number and a newline, reads back
      as that number. */
  lemma ReadsWrittenCounter(ns: nat)
    requires ns < U64_LIMIT
    ensures GetCpuUsageNs(Ok(NatToString(ns) + "\n")) == Ok(ns)
  {
    var digits := NatToString(ns);
    assert IsDigit(digits[0]) && IsDigit(digits[|digits| - 1]);
    TrimAround([], digits, "\n");
    assert [] + digits + "\n" == digits + "\n";
    ParseOfNatToString(ns, U64_LIMIT);
  }

  /** A file holding a line without digits is refused as `InvalidData`. */
  lemma RejectsNonNumbers(w: string)
    requires IsTrimmed(w)
    requires forall i :: 0 <= i < |w| ==> !IsDigit(w[i])
    ensures GetCpuUsageNs(Ok(w + "\n")).Err?
    ensures GetCpuUsageNs(Ok(w + "\n")).error.kind == InvalidData
  {
    TrimAround([], w, "\n");
    assert [] + w + "\n" == w + "\n";
    NoDigitNoNumber(w, U64_LIMIT);
  }

  lemma RejectsWords()
    ensures GetCpuUsageNs(Ok("invalid" + "\n")).Err?
    ensures GetCpuUsageNs(Ok("invalid" + "\n")).error.kind == InvalidData
  {
    var w := "invalid";
    assert forall i :: 0 <= i < |w| ==> !IsDigit(w[i]);
    RejectsNonNumbers(w);
  }

  /** A counter too large for a `u64` is refused as an overflow, even when
      a stray character follows its digits. */
  lemma OverflowReportedFirst(t: string)
    requires IsTrimmed(t) && |t| > 0 && IsDigit(t[0])
    requires DigitsValue(LeadingDigits(t)) >= U64_LIMIT
    ensures GetCpuUsageNs(Ok(t)) == Err(IoError(InvalidData, INVALID_USAGE_PREFIX + IntErrorMessage(PosOverflow)))
  {
    TrimOfTrimmed(t);
    OverflowComesFirst(t, U64_LIMIT);
  }

  /** `get_cpu_usage` after its two readings: a failed reading (the first
      one first) is passed on; zero elapsed nanoseconds is an error; the
      result is the saturating delta over the elapsed time, both in
      nanoseconds, tagged `FromCgroupV1`. */
  function GetCpuUsage(initial: Result<string>, current: Result<string>, elapsedNs: nat): (r: Result<CpuUsageValue>)
    ensures initial.Err? ==> r == Err(initial.error)
    ensures r.Ok? ==> r.value.FromCgroupV1? && r.value.usage >= 0.0
    ensures r.Ok? <==> GetCpuUsageNs(initial).Ok? && GetCpuUsageNs(current).Ok? && elapsedNs > 0
    ensures GetCpuUsageNs(initial).Ok? && GetCpuUsageNs(current).Ok? && elapsedNs == 0 ==>
              r == Err(IoError(Other, ZERO_ELAPSED_MESSAGE))
  {
    match GetCpuUsageNs(initial)
    case Err(e) => Err(e)
    case Ok(start) =>
      match GetCpuUsageNs(current)
      case Err(e) => Err(e)
      case Ok(end) =>
        if elapsedNs == 0 then Err(IoError(Other, ZERO_ELAPSED_MESSAGE))
        else Ok(FromCgroupV1(CounterRate(start, end, elapsedNs)))
  }

  /** Two counters written by the kernel over a nonzero interval give
      their counter rate: busy cores times elapsed time is the CPU time
      used, and a counter that went backwards reads as idle. */
  lemma UsageMeasuresCpuTime(start: nat, end: nat, elapsedNs: nat)
    requires start < U64_LIMIT && end < U64_LIMIT && elapsedNs > 0
    ensures GetCpuUsage(Ok(NatToString(start) + "\n"), Ok(NatToString(end) + "\n"), elapsedNs)
            == Ok(FromCgroupV1(CounterRate(start, end, elapsedNs)))
  {
    ReadsWrittenCounter(start);
    ReadsWrittenCounter(end);
  }
}
