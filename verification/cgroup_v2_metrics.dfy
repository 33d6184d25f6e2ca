/** The cgroup v2 metrics, each computed from the text of one interface
    file: the core count from `cpu.max`, the CPU time from `cpu.stat`,
    and memory from `memory.current` and `memory.max`. */
module CgroupV2Metrics {
  import opened Results
  import opened Text
  import opened Numbers
  import opened Stats

  // ------------------------------------------------------------ cpu.max

  const INVALID_CPU_MAX_PREFIX: string := "Invalid cpu.max format: "
  const UNLIMITED_QUOTA_MESSAGE: string := "`cpu.max` contains 'max' quota (unlimited), cannot determine the actual CPU count"

  /** `ParseIntError`'s text for refused `u64` text. */
  function U64ErrorMessage(s: string): string
    requires ParseU64(s).None?
  {
    IntErrorMessage(IntErrorOf(s, U64_LIMIT))
  }

  /** The word that marks a value as unlimited is no number. */
  lemma MaxIsNoNumber()
    ensures ParseU64("max") == None
  {
    var m := "max";
    assert m[0] == 'm' && m[1] == 'a' && m[2] == 'x';
    NoDigitNoNumber(m, U64_LIMIT);
  }

  /** The two words of `cpu.max` as quota over period; the quota is
      parsed (and refused) before the period. */
  function Quotient(quota: string, period: string): (r: Result<F64>)
    ensures r.Ok? <==> ParseU64(quota).Some? && ParseU64(period).Some?
    ensures r.Ok? ==> r.value == Divide(ParseU64(quota).value as real, ParseU64(period).value as real)
    ensures r.Err? ==> r.error.kind == InvalidData
  {
    match ParseU64(quota)
    case None => Err(IoError(InvalidData, "Failed to parse CPU quota '" + quota + "': " + U64ErrorMessage(quota)))
    case Some(q) =>
      match ParseU64(period)
      case None => Err(IoError(InvalidData, "Failed to parse CPU period '" + period + "': " + U64ErrorMessage(period)))
      case Some(p) => Ok(Divide(q as real, p as real))
  }

  /** `num_cpus::get_num_cpus`: `cpu.max` holds "quota period" in
      microseconds; the core count is their quotient. Anything other than
      two words, an unlimited quota, or a word that is not a `u64` is
      `InvalidData`. A zero period gives the non-finite quotient `f64`
      division yields. */
  function GetNumCpus(text: Result<string>): (r: Result<F64>)
    ensures text.Err? ==> r == Err(text.error)
    ensures text.Ok? && r.Err? ==> r.error.kind == InvalidData
    ensures text.Ok? && |Tokens(Trim(text.value))| != 2 ==>
              r == Err(IoError(InvalidData, INVALID_CPU_MAX_PREFIX + text.value))
    ensures text.Ok? && |Tokens(Trim(text.value))| == 2 && Tokens(Trim(text.value))[0] == "max" ==>
              r == Err(IoError(InvalidData, UNLIMITED_QUOTA_MESSAGE))
    ensures r.Ok? <==> text.Ok? && |Tokens(Trim(text.value))| == 2 &&
                       ParseU64(Tokens(Trim(text.value))[0]).Some? && ParseU64(Tokens(Trim(text.value))[1]).Some?
    ensures r.Ok? ==> var parts := Tokens(Trim(text.value));
              r.value == Divide(ParseU64(parts[0]).value as real, ParseU64(parts[1]).value as real)
  {
    match text
    case Err(e) => Err(e)
    case Ok(t) =>
      var parts := Tokens(Trim(t));
      if |parts| != 2 then Err(IoError(InvalidData, INVALID_CPU_MAX_PREFIX + t))
      else if parts[0] == "max" then
        assert ParseU64(parts[0]).None? by { MaxIsNoNumber(); }
        Err(IoError(InvalidData, UNLIMITED_QUOTA_MESSAGE))
      else Quotient(parts[0], parts[1])
  }

  /** The decimal text of a number is a single word. */
  lemma NumberIsWord(n: nat)
    ensures IsWord(NatToString(n))
  {
    var s := NatToString(n);
    forall i | 0 <= i < |s| ensures !IsWhitespace(s[i]) {
      assert IsDigit(s[i]);
    }
  }

  /** The two numbers of a written `cpu.max` are its two words. */
  lemma CpuLimitWords(quota: nat, period: nat)
    ensures var text := NatToString(quota) + " " + (NatToString(period) + "\n");
            Tokens(Trim(text)) == [NatToString(quota), NatToString(period)]
  {
    var q, p := NatToString(quota), NatToString(period);
    var text := q + " " + (p + "\n");
    NumberIsWord(quota);
    NumberIsWord(period);
    TokensOfWordThenSpace(q, p + "\n");
    TokensTrailingWhitespace(p, "\n");
    TokensOfWord(p);
    TokensOfTrim(text);
  }

  /** `cpu.max` as the kernel writes a limit reads back as quota over
      period: 2.0 for "200000 100000", 0.5 for "50000 100000". */
  lemma ReadsCpuLimit(quota: nat, period: nat)
    requires quota < U64_LIMIT && period < U64_LIMIT
    ensures GetNumCpus(Ok(NatToString(quota) + " " + (NatToString(period) + "\n")))
            == Ok(Divide(quota as real, period as real))
  {
    var q, p := NatToString(quota), NatToString(period);
    CpuLimitWords(quota, period);
    assert q != "max" by { assert IsDigit(q[0]); }
    ParseOfNatToString(quota, U64_LIMIT);
    ParseOfNatToString(period, U64_LIMIT);
  }

  /** An unlimited quota is refused whatever the period. */
  lemma RefusesUnlimitedQuota(period: string)
    requires IsWord(period)
    ensures GetNumCpus(Ok("max" + " " + period)) == Err(IoError(InvalidData, UNLIMITED_QUOTA_MESSAGE))
  {
    assert IsWord("max");
    TokensOfWordThenSpace("max", period);
    TokensOfWord(period);
    TokensOfTrim("max" + " " + period);
  }

  // ----------------------------------------------------------- cpu.stat

  const USAGE_USEC_KEY: string := "usage_usec"
  const NO_USAGE_USEC_MESSAGE: string := "Could not find usage_usec in v2 cgroup/cpu.stat"

  /** The value a `cpu.stat` line offers: a line that starts with
      `usage_usec` and whose second word is a `u64`. */
  function UsageUsecOf(line: string): (r: Option<nat>)
    ensures r.Some? ==> StartsWith(line, USAGE_USEC_KEY) && |Tokens(line)| >= 2 && ParseU64(Tokens(line)[1]) == r
  {
    var words := Tokens(line);
    if StartsWith(line, USAGE_USEC_KEY) && |words| >= 2 then ParseU64(words[1]) else None
  }

  /** `get_cpu_usage_usec`: the value of the first line that offers one;
      `InvalidData` when no line does. */
  function GetCpuUsageUsec(lines: Result<seq<string>>): (r: Result<nat>)
    ensures lines.Err? ==> r == Err(lines.error)
    ensures lines.Ok? ==> (r.Err? <==> forall i :: 0 <= i < |lines.value| ==> UsageUsecOf(lines.value[i]).None?)
    ensures lines.Ok? && r.Err? ==> r.error == IoError(InvalidData, NO_USAGE_USEC_MESSAGE)
    ensures r.Ok? ==> r.value < U64_LIMIT
  {
    match lines
    case Err(e) => Err(e)
    case Ok(ls) =>
      match FirstSome(ls, UsageUsecOf)
      case Some(v) =>
        FirstSomeIsSomeAnswer(ls, UsageUsecOf);
        Ok(v)
      case None => Err(IoError(InvalidData, NO_USAGE_USEC_MESSAGE))
  }

  /** Lines before the first one that offers a value are skipped and lines
      after it are ignored. */
  lemma UsageUsecIsFirst(lines: seq<string>, i: nat)
    requires i < |lines| && UsageUsecOf(lines[i]).Some?
    requires forall j :: 0 <= j < i ==> UsageUsecOf(lines[j]).None?
    ensures GetCpuUsageUsec(Ok(lines)) == Ok(UsageUsecOf(lines[i]).value)
  {
    FirstSomeAt(lines, UsageUsecOf, i);
  }

  /** The line the kernel writes first in `cpu.stat` reads back as its value. */
  lemma ReadsUsageLine(n: nat, rest: seq<string>)
    requires n < U64_LIMIT
    ensures GetCpuUsageUsec(Ok([USAGE_USEC_KEY + " " + NatToString(n)] + rest)) == Ok(n)
  {
    var line := USAGE_USEC_KEY + " " + NatToString(n);
    assert IsWord(USAGE_USEC_KEY);
    NumberIsWord(n);
    TokensOfWordThenSpace(USAGE_USEC_KEY, NatToString(n));
    TokensOfWord(NatToString(n));
    assert line[..|USAGE_USEC_KEY|] == USAGE_USEC_KEY;
    ParseOfNatToString(n, U64_LIMIT);
    assert UsageUsecOf(line) == Some(n);
    UsageUsecIsFirst([line] + rest, 0);
  }

  /** `cgroup_v2::cpu_usage::get_cpu_usage` after its two readings: a
      failed reading is passed on (the first one first); zero elapsed
      microseconds gives zero usage rather than an error; otherwise the
      saturating delta over the elapsed time, tagged `FromCgroupV2`. */
  function GetCpuUsage(initial: Result<seq<string>>, current: Result<seq<string>>, elapsedUs: nat): (r: Result<CpuUsageValue>)
    ensures initial.Err? ==> r == Err(initial.error)
    ensures r.Ok? <==> GetCpuUsageUsec(initial).Ok? && GetCpuUsageUsec(current).Ok?
    ensures r.Ok? ==> r.value.FromCgroupV2? && r.value.usage >= 0.0
    ensures r.Ok? && elapsedUs == 0 ==> r.value.usage == 0.0
  {
    match GetCpuUsageUsec(initial)
    case Err(e) => Err(e)
    case Ok(start) =>
      match GetCpuUsageUsec(current)
      case Err(e) => Err(e)
      case Ok(end) =>
        if elapsedUs == 0 then Ok(FromCgroupV2(0.0))
        else Ok(FromCgroupV2(CounterRate(start, end, elapsedUs)))
  }

  /** Two `cpu.stat` readings over a nonzero interval give the counter rate. */
  lemma UsageMeasuresCpuTime(start: nat, end: nat, elapsedUs: nat, rest: seq<string>)
    requires start < U64_LIMIT && end < U64_LIMIT && elapsedUs > 0
    ensures GetCpuUsage(Ok([USAGE_USEC_KEY + " " + NatToString(start)] + rest),
                        Ok([USAGE_USEC_KEY + " " + NatToString(end)] + rest), elapsedUs)
            == Ok(FromCgroupV2(CounterRate(start, end, elapsedUs)))
  {
    ReadsUsageLine(start, rest);
    ReadsUsageLine(end, rest);
  }

  // ------------------------------------------- memory.current, memory.max

  const UNLIMITED_MEMORY_MESSAGE: string := "`memory.max`" + " contains 'max' (unlimited), cannot determine the actual memory limit"

  /** The start of the message for a byte count file that is not a `u64`. */
  function InvalidFormatPrefix(file: string): (p: string)
    ensures |p| > 0 && p[0] == 'I'
  {
    "Invalid " + file + " format: "
  }

  /** A byte count file read as whole KB (rounded down); text that is not
      a `u64` is `InvalidData` naming the file. */
  function ParseKb(text: string, file: string): (r: Result<nat>)
    ensures r.Ok? <==> ParseU64(Trim(text)).Some?
    ensures r.Ok? ==> r.value * 1024 <= ParseU64(Trim(text)).value < (r.value + 1) * 1024
    ensures r.Err? ==> r.error.kind == InvalidData && StartsWith(r.error.message, InvalidFormatPrefix(file))
  {
    match ParseU64(Trim(text))
    case Some(bytes) => Ok(bytes / 1024)
    case None =>
      var prefix := InvalidFormatPrefix(file);
      var message := prefix + U64ErrorMessage(Trim(text));
      assert message[..|prefix|] == prefix;
      Err(IoError(InvalidData, message))
  }

  /** `get_memory_current_kb`: the group's usage in KB. */
  function GetMemoryCurrentKb(text: Result<string>): (r: Result<nat>)
    ensures text.Err? ==> r == Err(text.error)
    ensures text.Ok? ==> r == ParseKb(text.value, "memory.current")
  {
    match text
    case Err(e) => Err(e)
    case Ok(t) => ParseKb(t, "memory.current")
  }

  /** `get_memory_max_kb`: the group's limit in KB; the unlimited value is
      refused with its own message. */
  function GetMemoryMaxKb(text: Result<string>): (r: Result<nat>)
    ensures text.Err? ==> r == Err(text.error)
    ensures text.Ok? && Trim(text.value) == "max" ==> r == Err(IoError(InvalidData, UNLIMITED_MEMORY_MESSAGE))
    ensures text.Ok? && Trim(text.value) != "max" ==> r == ParseKb(text.value, "memory.max")
  {
    match text
    case Err(e) => Err(e)
    case Ok(t) =>
      if Trim(t) == "max" then Err(IoError(InvalidData, UNLIMITED_MEMORY_MESSAGE))
      else ParseKb(t, "memory.max")
  }

  /** A byte count written by the kernel reads back as its whole KB. */
  lemma ReadsByteCount(bytes: nat)
    requires bytes < U64_LIMIT
    ensures GetMemoryCurrentKb(Ok(NatToString(bytes) + "\n")) == Ok(bytes / 1024)
    ensures GetMemoryMaxKb(Ok(NatToString(bytes) + "\n")) == Ok(bytes / 1024)
  {
    var digits := NatToString(bytes);
    assert IsDigit(digits[0]) && IsDigit(digits[|digits| - 1]);
    TrimAround([], digits, "\n");
    assert [] + digits + "\n" == digits + "\n";
    DecimalTextReadsAsKb(digits + "\n", bytes);
  }

  /** Text that trims to a byte count in decimal reads as its whole KB. */
  lemma DecimalTextReadsAsKb(t: string, bytes: nat)
    requires bytes < U64_LIMIT && Trim(t) == NatToString(bytes)
    ensures GetMemoryCurrentKb(Ok(t)) == Ok(bytes / 1024)
    ensures GetMemoryMaxKb(Ok(t)) == Ok(bytes / 1024)
  {
    var digits := NatToString(bytes);
    assert digits != "max" by { assert IsDigit(digits[0]); }
    ParseOfNatToString(bytes, U64_LIMIT);
  }

  /** Text that trims to `max` is refused by both memory readers: by
      `memory.max` as unlimited, by `memory.current` as malformed. */
  lemma MaxTextRefused(t: string)
    requires Trim(t) == "max"
    ensures GetMemoryMaxKb(Ok(t)) == Err(IoError(InvalidData, UNLIMITED_MEMORY_MESSAGE))
    ensures GetMemoryCurrentKb(Ok(t)).Err?
  {
    MaxIsNoNumber();
  }
}
