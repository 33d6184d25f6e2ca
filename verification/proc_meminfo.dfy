/** The `/proc/meminfo` reader: the host's total and available memory,
    and the usage as their saturating difference. */
module ProcMeminfo {
  import opened Results
  import opened Text
  import opened Numbers

  const MEM_TOTAL_KEY: string := "MemTotal:"
  const MEM_AVAILABLE_KEY: string := "MemAvailable:"

  /** `parse_proc_meminfo_value`: the second word as a `u64`, or 0 when
      there is none or it is not a number. */
  function MeminfoValue(line: string): (v: nat)
    ensures v < U64_LIMIT
    ensures |Tokens(line)| < 2 ==> v == 0
    ensures v > 0 ==> ParseU64(Tokens(line)[1]) == Some(v)
    ensures |Tokens(line)| >= 2 && ParseU64(Tokens(line)[1]).Some? ==> v == ParseU64(Tokens(line)[1]).value
    ensures |Tokens(line)| >= 2 && ParseU64(Tokens(line)[1]).None? ==> v == 0
  {
    var words := Tokens(line);
    if |words| < 2 then 0 else ParseU64(words[1]).GetOr(0)
  }

  /** A meminfo line as the kernel writes it: key, value, unit. */
  function MeminfoLine(key: string, kb: nat): string {
    key + " " + (NatToString(kb) + " " + "kB")
  }

  lemma DecimalIsWord(n: nat)
    ensures IsWord(NatToString(n))
  {
    var s := NatToString(n);
    forall i | 0 <= i < |s| ensures !IsWhitespace(s[i]) {
      assert IsDigit(s[i]);
    }
  }

  /** A written line reads back as its value. */
  lemma MeminfoValueOfLine(key: string, kb: nat)
    requires IsWord(key) && kb < U64_LIMIT
    ensures MeminfoValue(MeminfoLine(key, kb)) == kb
  {
    DecimalIsWord(kb);
    TokensOfWord("kB");
    TokensOfWordThenSpace(NatToString(kb), "kB");
    TokensOfWordThenSpace(key, NatToString(kb) + " " + "kB");
    ParseOfNatToString(kb, U64_LIMIT);
  }

  /** What the scan has found so far. */
  datatype Totals = Totals(total: nat, available: nat)

  const NOTHING_FOUND := Totals(0, 0)

  /** The scan stops once both values are non-zero. */
  predicate Done(t: Totals) {
    t.total > 0 && t.available > 0
  }

  /** The keys differ in their fourth character, so no line starts with both. */
  lemma KeysExclusive(line: string)
    ensures !(StartsWith(line, MEM_AVAILABLE_KEY) && StartsWith(line, MEM_TOTAL_KEY))
  {
    assert MEM_AVAILABLE_KEY[3] == 'A' && MEM_TOTAL_KEY[3] == 'T';
    if StartsWith(line, MEM_TOTAL_KEY) {
      assert line[3] == 'T';
    }
  }

  /** One line of `get_memory_usage_and_total_kb`: `MemAvailable:` is
      tested first, then `MemTotal:`; any other line changes nothing. */
  function Step(t: Totals, line: string): (r: Totals)
    ensures !StartsWith(line, MEM_AVAILABLE_KEY) && !StartsWith(line, MEM_TOTAL_KEY) ==> r == t
    ensures StartsWith(line, MEM_AVAILABLE_KEY) ==> r == t.(available := MeminfoValue(line))
    ensures StartsWith(line, MEM_TOTAL_KEY) ==> r == t.(total := MeminfoValue(line))
  {
    KeysExclusive(line);
    if StartsWith(line, MEM_AVAILABLE_KEY) then t.(available := MeminfoValue(line))
    else if StartsWith(line, MEM_TOTAL_KEY) then t.(total := MeminfoValue(line))
    else t
  }

  /** `get_memory_stats` in `proc.rs` tests `MemTotal:` first. */
  function LegacyStep(t: Totals, line: string): Totals {
    if StartsWith(line, MEM_TOTAL_KEY) then t.(total := MeminfoValue(line))
    else if StartsWith(line, MEM_AVAILABLE_KEY) then t.(available := MeminfoValue(line))
    else t
  }

  /** No line starts with both keys, so the order of the tests does not
      matter. */
  lemma StepOrderIrrelevant(t: Totals, line: string)
    ensures Step(t, line) == LegacyStep(t, line)
  {
    assert MEM_AVAILABLE_KEY[3] == 'A' && MEM_TOTAL_KEY[3] == 'T';
    if StartsWith(line, MEM_TOTAL_KEY) {
      assert line[3] == 'T';
    }
  }

  /** The loop: each line is applied, then the scan stops if both values
      are known. */
  function Scan(t: Totals, lines: seq<string>): Totals
    decreases |lines|
  {
    if lines == [] then t
    else
      var next := Step(t, lines[0]);
      if Done(next) then next else Scan(next, lines[1..])
  }

  /** The loop in `proc.rs`, over its own step. */
  function LegacyScan(t: Totals, lines: seq<string>): Totals
    decreases |lines|
  {
    if lines == [] then t
    else
      var next := LegacyStep(t, lines[0]);
      if Done(next) then next else LegacyScan(next, lines[1..])
  }

  lemma {:induction false} ScansAgree(t: Totals, lines: seq<string>)
    ensures Scan(t, lines) == LegacyScan(t, lines)
    decreases |lines|
  {
    if lines != [] {
      StepOrderIrrelevant(t, lines[0]);
      ScansAgree(Step(t, lines[0]), lines[1..]);
    }
  }

  /** Scanning two blocks of lines is scanning the first and, unless that
      found both values, going on with the second; so once both values are
      found the remaining lines are never looked at. */
  lemma {:induction false} ScanAppend(t: Totals, a: seq<string>, b: seq<string>)
    requires a != []
    ensures Done(Scan(t, a)) ==> Scan(t, a + b) == Scan(t, a)
    ensures !Done(Scan(t, a)) ==> Scan(t, a + b) == Scan(Scan(t, a), b)
    decreases |a|
  {
    assert (a + b)[0] == a[0];
    assert (a + b)[1..] == a[1..] + b;
    var next := Step(t, a[0]);
    if !Done(next) && |a| > 1 {
      ScanAppend(next, a[1..], b);
    } else if !Done(next) {
      assert a[1..] + b == b;
    }
  }

  /** Lines carrying neither key leave the scan where it was. */
  lemma {:induction false} ScanSkipsOtherLines(t: Totals, lines: seq<string>)
    requires !Done(t)
    requires forall k :: 0 <= k < |lines| ==> !StartsWith(lines[k], MEM_AVAILABLE_KEY) && !StartsWith(lines[k], MEM_TOTAL_KEY)
    ensures Scan(t, lines) == t
    decreases |lines|
  {
    if lines != [] {
      ScanSkipsOtherLines(t, lines[1..]);
    }
  }

  /** The scan only ever holds values read from lines, starting from
      nothing found, and the total is 0 unless some line names it. */
  lemma {:induction false} TotalNeedsItsLine(t: Totals, lines: seq<string>)
    requires t.total == 0
    requires forall k :: 0 <= k < |lines| ==> !StartsWith(lines[k], MEM_TOTAL_KEY)
    ensures Scan(t, lines).total == 0
    decreases |lines|
  {
    if lines != [] {
      TotalNeedsItsLine(Step(t, lines[0]), lines[1..]);
    }
  }

  /** The pair `get_memory_usage_and_total_kb` returns. */
  datatype MemoryKb = MemoryKb(usageKb: nat, totalKb: nat)

  /** `get_memory_usage_and_total_kb`: a read failure is passed on;
      otherwise the total found and the total less the available memory,
      floored at 0. */
  function GetMemoryUsageAndTotalKb(lines: Result<seq<string>>): (r: Result<MemoryKb>)
    ensures lines.Err? ==> r == Err(lines.error)
    ensures lines.Ok? ==> r.Ok?
    ensures r.Ok? ==> r.value.usageKb <= r.value.totalKb
    ensures r.Ok? ==> r.value.totalKb == Scan(NOTHING_FOUND, lines.value).total
    ensures r.Ok? ==> r.value.usageKb + Scan(NOTHING_FOUND, lines.value).available >= r.value.totalKb
    ensures r.Ok? && Scan(NOTHING_FOUND, lines.value).available <= r.value.totalKb ==>
              r.value.usageKb + Scan(NOTHING_FOUND, lines.value).available == r.value.totalKb
    ensures r.Ok? && Scan(NOTHING_FOUND, lines.value).available > r.value.totalKb ==> r.value.usageKb == 0
  {
    match lines
    case Err(e) => Err(e)
    case Ok(ls) =>
      var found := Scan(NOTHING_FOUND, ls);
      Ok(MemoryKb(SaturatingSub(found.total, found.available), found.total))
  }

  /** `get_memory_stats` in `proc.rs`, over the file's text: the same
      numbers, with the floor written as a comparison. */
  function LegacyMemoryStats(content: Result<string>): (r: Result<MemoryKb>)
    ensures content.Err? ==> r == Err(content.error)
    ensures r.Ok? ==> r.value.usageKb <= r.value.totalKb
    ensures r.Ok? ==> r.value.totalKb == LegacyScan(NOTHING_FOUND, Lines(content.value)).total
    ensures r.Ok? && LegacyScan(NOTHING_FOUND, Lines(content.value)).available <= r.value.totalKb ==>
              r.value.usageKb + LegacyScan(NOTHING_FOUND, Lines(content.value)).available == r.value.totalKb
    ensures r.Ok? && LegacyScan(NOTHING_FOUND, Lines(content.value)).available > r.value.totalKb ==> r.value.usageKb == 0
  {
    match content
    case Err(e) => Err(e)
    case Ok(text) =>
      var found := LegacyScan(NOTHING_FOUND, Lines(text));
      var usage := if found.available <= found.total then found.total - found.available else 0;
      Ok(MemoryKb(usage, found.total))
  }

  /** The two generations report the same numbers for the same file. */
  lemma LegacyMemoryStatsAgrees(text: string)
    ensures LegacyMemoryStats(Ok(text)) == GetMemoryUsageAndTotalKb(Ok(Lines(text)))
  {
    var lines := Lines(text);
    ScansAgree(NOTHING_FOUND, lines);
    var found := Scan(NOTHING_FOUND, lines);
    assert LegacyMemoryStats(Ok(text)) == Ok(MemoryKb(SaturatingSub(found.total, found.available), found.total));
  }

  // ------------------------------------------------------ named lines

  lemma KeysAreWords()
    ensures IsWord(MEM_TOTAL_KEY) && IsWord(MEM_AVAILABLE_KEY) && IsWord("MemFree:")
  {
  }

  lemma KeysOfLines(free: nat, kb: nat)
    ensures StartsWith(MeminfoLine(MEM_TOTAL_KEY, kb), MEM_TOTAL_KEY)
    ensures !StartsWith(MeminfoLine(MEM_TOTAL_KEY, kb), MEM_AVAILABLE_KEY)
    ensures StartsWith(MeminfoLine(MEM_AVAILABLE_KEY, kb), MEM_AVAILABLE_KEY)
    ensures !StartsWith(MeminfoLine(MEM_AVAILABLE_KEY, kb), MEM_TOTAL_KEY)
    ensures !StartsWith(MeminfoLine("MemFree:", free), MEM_AVAILABLE_KEY)
    ensures !StartsWith(MeminfoLine("MemFree:", free), MEM_TOTAL_KEY)
  {
    var t := MeminfoLine(MEM_TOTAL_KEY, kb);
    assert t[..9] == MEM_TOTAL_KEY;
    assert t[3] == 'T';
    var a := MeminfoLine(MEM_AVAILABLE_KEY, kb);
    assert a[..13] == MEM_AVAILABLE_KEY;
    assert a[3] == 'A';
    var f := MeminfoLine("MemFree:", free);
    assert f[3] == 'F';
  }

  /** Total, free and available lines in the kernel's order: usage is the
      total less the available memory. */
  lemma ReadsTotalAndAvailable(total: nat, free: nat, available: nat)
    requires 0 < available <= total < U64_LIMIT && free < U64_LIMIT
    ensures GetMemoryUsageAndTotalKb(Ok([MeminfoLine(MEM_TOTAL_KEY, total), MeminfoLine("MemFree:", free),
                                         MeminfoLine(MEM_AVAILABLE_KEY, available)]))
            == Ok(MemoryKb(total - available, total))
  {
    var t, f, a := MeminfoLine(MEM_TOTAL_KEY, total), MeminfoLine("MemFree:", free), MeminfoLine(MEM_AVAILABLE_KEY, available);
    KeysAreWords();
    KeysOfLines(free, total);
    KeysOfLines(free, available);
    MeminfoValueOfLine(MEM_TOTAL_KEY, total);
    MeminfoValueOfLine(MEM_AVAILABLE_KEY, available);
    var s1 := Step(NOTHING_FOUND, t);
    assert s1 == Totals(total, 0);
    assert Step(s1, f) == s1;
    assert Step(s1, a) == Totals(total, available);
    assert Scan(s1, [a]) == Totals(total, available);
    assert [t, f, a][1..] == [f, a] && [f, a][1..] == [a];
    assert Scan(s1, [f, a]) == Scan(s1, [a]);
    assert Scan(NOTHING_FOUND, [t, f, a]) == Scan(s1, [f, a]);
  }

  /** Without `MemAvailable:` nothing counts as available, so the whole
      total is reported as used. */
  lemma MissingAvailableIsAllUsed(total: nat, free: nat)
    requires 0 < total < U64_LIMIT && free < U64_LIMIT
    ensures GetMemoryUsageAndTotalKb(Ok([MeminfoLine(MEM_TOTAL_KEY, total), MeminfoLine("MemFree:", free)]))
            == Ok(MemoryKb(total, total))
  {
    var t, f := MeminfoLine(MEM_TOTAL_KEY, total), MeminfoLine("MemFree:", free);
    KeysAreWords();
    KeysOfLines(free, total);
    MeminfoValueOfLine(MEM_TOTAL_KEY, total);
    var s1 := Step(NOTHING_FOUND, t);
    assert s1 == Totals(total, 0);
    assert Step(s1, f) == s1;
    assert [t, f][1..] == [f] && [f][1..] == [];
    assert Scan(s1, [f]) == s1;
    assert Scan(NOTHING_FOUND, [t, f]) == Scan(s1, [f]);
  }

  /** Without `MemTotal:` both numbers are 0. */
  lemma MissingTotalIsNothing(lines: seq<string>)
    requires forall k :: 0 <= k < |lines| ==> !StartsWith(lines[k], MEM_TOTAL_KEY)
    ensures GetMemoryUsageAndTotalKb(Ok(lines)) == Ok(MemoryKb(0, 0))
  {
    TotalNeedsItsLine(NOTHING_FOUND, lines);
  }

  /** More available than total is reported as no usage. */
  lemma AvailableAboveTotalIsNoUsage(total: nat, available: nat)
    requires 0 < total < available < U64_LIMIT
    ensures GetMemoryUsageAndTotalKb(Ok([MeminfoLine(MEM_TOTAL_KEY, total), MeminfoLine(MEM_AVAILABLE_KEY, available)]))
            == Ok(MemoryKb(0, total))
  {
    var t, a := MeminfoLine(MEM_TOTAL_KEY, total), MeminfoLine(MEM_AVAILABLE_KEY, available);
    KeysAreWords();
    KeysOfLines(0, total);
    KeysOfLines(0, available);
    MeminfoValueOfLine(MEM_TOTAL_KEY, total);
    MeminfoValueOfLine(MEM_AVAILABLE_KEY, available);
    var s1 := Step(NOTHING_FOUND, t);
    assert s1 == Totals(total, 0);
    assert Step(s1, a) == Totals(total, available);
    assert [t, a][1..] == [a];
    assert Scan(s1, [a]) == Totals(total, available);
    assert Scan(NOTHING_FOUND, [t, a]) == Scan(s1, [a]);
  }
}
