/** The GPU aggregate: a tolerant fold over the CSV lines `nvidia-smi`
    prints, one line per GPU with index, utilisation in percent, and used
    and total memory in MiB. */
module NvidiaSmi {
  import opened Results
  import opened Text
  import opened Numbers
  import opened Stats

  /** No GPU seen: what empty or unrelated output aggregates to. */
  const NO_GPUS := GpuStats(0, 0.0, 0, 0)

  /** The pieces of a line between commas, each trimmed. */
  function Fields(line: string): (r: seq<string>)
    ensures |r| == |Split(line, ',')|
  {
    MapStrings(Trim, Split(line, ','))
  }

  /** `f` applied to each piece. */
  function MapStrings(f: string -> string, parts: seq<string>): (r: seq<string>)
    ensures |r| == |parts|
  {
    seq(|parts|, k requires 0 <= k < |parts| => f(parts[k]))
  }

  /** A MiB figure in KB; text that is not a `u64` adds nothing. */
  function MibAsKb(field: string): (kb: nat)
    ensures ParseU64(field).None? ==> kb == 0
    ensures ParseU64(field).Some? ==> kb == ParseU64(field).value * 1024
  {
    match ParseU64(field)
    case None => 0
    case Some(mib) => mib * 1024
  }

  /** A percentage as a share of one GPU; text that is not a number adds
      nothing. */
  function PercentAsShare(field: string): (share: real)
    ensures ParseDecimal(field).None? ==> share == 0.0
    ensures ParseDecimal(field).Some? ==> share * 100.0 == ParseDecimal(field).value
  {
    match ParseDecimal(field)
    case None => 0.0
    case Some(percent) => percent / 100.0
  }

  /** What one line adds: nothing when it has fewer than four fields;
      otherwise one GPU, whether or not its numbers parse. */
  function Contribution(line: string): (r: GpuStats)
    ensures r.numGpus == (if |Split(line, ',')| < 4 then 0 else 1)
    ensures |Split(line, ',')| < 4 ==> r == NO_GPUS
  {
    var fields := Fields(line);
    if |fields| < 4 then NO_GPUS
    else GpuStats(1, PercentAsShare(fields[1]), MibAsKb(fields[2]), MibAsKb(fields[3]))
  }

  function Add(a: GpuStats, b: GpuStats): GpuStats {
    GpuStats(a.numGpus + b.numGpus, a.gpuUsage + b.gpuUsage, a.memoryUsageKb + b.memoryUsageKb, a.memoryTotalKb + b.memoryTotalKb)
  }

  /** The sum of per-line figures. */
  function Total(xs: seq<GpuStats>): GpuStats {
    if xs == [] then NO_GPUS else Add(xs[0], Total(xs[1..]))
  }

  lemma {:induction false} TotalAppend(xs: seq<GpuStats>, ys: seq<GpuStats>)
    ensures Total(xs + ys) == Add(Total(xs), Total(ys))
  {
    if xs == [] {
      assert xs + ys == ys;
    } else {
      var zs := xs + ys;
      assert zs[1..] == xs[1..] + ys;
      assert zs[0] == xs[0];
      TotalAppend(xs[1..], ys);
      assert Total(zs) == Add(xs[0], Total(xs[1..] + ys));
      assert Total(xs) == Add(xs[0], Total(xs[1..]));
      AddAssociative(xs[0], Total(xs[1..]), Total(ys));
    }
  }

  lemma AddAssociative(a: GpuStats, b: GpuStats, c: GpuStats)
    ensures Add(Add(a, b), c) == Add(a, Add(b, c))
  {
  }

  /** `f` applied to each line. */
  function MapLines(f: string -> GpuStats, lines: seq<string>): (r: seq<GpuStats>)
    ensures |r| == |lines|
    ensures forall k :: 0 <= k < |r| ==> r[k] == f(lines[k])
  {
    if lines == [] then [] else [f(lines[0])] + MapLines(f, lines[1..])
  }

  lemma MapLinesAppend(f: string -> GpuStats, a: seq<string>, b: seq<string>)
    ensures MapLines(f, a + b) == MapLines(f, a) + MapLines(f, b)
  {
  }

  /** The loop of `get_gpu_stats` over the output's lines: the sum of what
      each line adds. */
  function Aggregate(lines: seq<string>): (r: GpuStats)
    ensures r.numGpus <= |lines|
  {
    GpusAtMostLines(MapLines(Contribution, lines));
    Total(MapLines(Contribution, lines))
  }

  lemma {:induction false} GpusAtMostLines(xs: seq<GpuStats>)
    requires forall k :: 0 <= k < |xs| ==> xs[k].numGpus <= 1
    ensures Total(xs).numGpus <= |xs|
  {
    if xs != [] {
      GpusAtMostLines(xs[1..]);
    }
  }

  /** The aggregate of two blocks of output is the sum of their aggregates:
      each line counts on its own, independent of its neighbours. */
  lemma AggregateAppend(a: seq<string>, b: seq<string>)
    ensures Aggregate(a + b) == Add(Aggregate(a), Aggregate(b))
  {
    MapLinesAppend(Contribution, a, b);
    TotalAppend(MapLines(Contribution, a), MapLines(Contribution, b));
  }

  lemma TotalOfOne(f: string -> GpuStats, line: string)
    ensures Total(MapLines(f, [line])) == f(line)
  {
    var xs := MapLines(f, [line]);
    assert xs == [f(line)];
    assert xs[1..] == [];
    assert Total(xs) == Add(f(line), NO_GPUS);
  }

  /** One line aggregates to what it adds. */
  lemma AggregateOfOne(line: string)
    ensures Aggregate([line]) == Contribution(line)
  {
    TotalOfOne(Contribution, line);
  }

  /** A line with no comma is one field, so it is skipped. */
  lemma NoCommaNoGpu(line: string)
    requires ',' !in line
    ensures Contribution(line) == NO_GPUS
  {
  }

  /** Output that is a single line without commas, such as a message in
      place of the table, aggregates to no GPUs rather than an error. */
  lemma UnrelatedOutputIsNoGpus(line: string)
    requires ',' !in line && '\n' !in line
    ensures GetGpuStats(Ok(line)) == Ok(NO_GPUS)
  {
    if line != [] {
      assert Lines(line) == [line];
      AggregateOfOne(line);
      NoCommaNoGpu(line);
    }
  }

  /** `get_gpu_stats`: a failure to run the tool is passed on; otherwise
      the aggregate of the output's lines. */
  function GetGpuStats(output: Result<string>): (r: Result<GpuStats>)
    ensures output.Err? ==> r == Err(output.error)
    ensures output.Ok? ==> r.Ok? && r.value.numGpus <= |Lines(output.value)|
    ensures output == Ok([]) ==> r == Ok(NO_GPUS)
  {
    match output
    case Err(e) => Err(e)
    case Ok(text) => Ok(Aggregate(Lines(text)))
  }

  // ------------------------------------------------------- written lines

  /** A line as the tool prints it: the four numbers separated by `, `. */
  function GpuLine(index: nat, percent: nat, usedMib: nat, totalMib: nat): string {
    Join([NatToString(index), " " + NatToString(percent), " " + NatToString(usedMib), " " + NatToString(totalMib)], ',')
  }

  /** A printed line is one line: no newline, and it ends in a digit. */
  lemma GpuLineShape(index: nat, percent: nat, usedMib: nat, totalMib: nat)
    ensures '\n' !in GpuLine(index, percent, usedMib, totalMib)
    ensures GpuLine(index, percent, usedMib, totalMib) != []
    ensures IsDigit(GpuLine(index, percent, usedMib, totalMib)[|GpuLine(index, percent, usedMib, totalMib)| - 1])
  {
    var a, b, c, d := NatToString(index), " " + NatToString(percent), " " + NatToString(usedMib), " " + NatToString(totalMib);
    DecimalHasNoSeparator(index);
    DecimalHasNoSeparator(percent);
    DecimalHasNoSeparator(usedMib);
    DecimalHasNoSeparator(totalMib);
    var tail := c + [','] + d;
    assert Join([c, d], ',') == tail;
    assert [b, c, d][1..] == [c, d];
    assert Join([b, c, d], ',') == b + [','] + tail;
    assert [a, b, c, d][1..] == [b, c, d];
    var line := a + [','] + (b + [','] + tail);
    assert GpuLine(index, percent, usedMib, totalMib) == line;
    assert line[|line| - 1] == d[|d| - 1] == NatToString(totalMib)[|NatToString(totalMib)| - 1];
  }

  lemma DecimalHasNoSeparator(n: nat)
    ensures ',' !in NatToString(n) && '\n' !in NatToString(n)
    ensures ',' !in " " + NatToString(n) && '\n' !in " " + NatToString(n)
    ensures IsTrimmed(NatToString(n))
  {
    var s := NatToString(n);
    assert forall i :: 0 <= i < |s| ==> IsDigit(s[i]);
    assert (" " + s)[0] == ' ';
    assert forall i :: 1 <= i < |" " + s| ==> (" " + s)[i] == s[i - 1];
  }

  lemma TrimOfSpacedDecimal(n: nat)
    ensures Trim(" " + NatToString(n)) == NatToString(n)
    ensures Trim(NatToString(n)) == NatToString(n)
  {
    var s := NatToString(n);
    DecimalHasNoSeparator(n);
    TrimStartSkipsWhitespace(" ", s);
    TrimOfTrimmed(s);
  }

  lemma GpuLineSplit(index: nat, percent: nat, usedMib: nat, totalMib: nat)
    ensures Split(GpuLine(index, percent, usedMib, totalMib), ',')
            == [NatToString(index), " " + NatToString(percent), " " + NatToString(usedMib), " " + NatToString(totalMib)]
  {
    var parts := [NatToString(index), " " + NatToString(percent), " " + NatToString(usedMib), " " + NatToString(totalMib)];
    DecimalHasNoSeparator(index);
    DecimalHasNoSeparator(percent);
    DecimalHasNoSeparator(usedMib);
    DecimalHasNoSeparator(totalMib);
    SplitOfJoin(parts, ',');
  }

  lemma MapStringsOfFour(f: string -> string, p0: string, p1: string, p2: string, p3: string)
    ensures MapStrings(f, [p0, p1, p2, p3]) == [f(p0), f(p1), f(p2), f(p3)]
  {
  }

  lemma GpuLineFields(index: nat, percent: nat, usedMib: nat, totalMib: nat)
    ensures Fields(GpuLine(index, percent, usedMib, totalMib))
            == [NatToString(index), NatToString(percent), NatToString(usedMib), NatToString(totalMib)]
  {
    var parts := [NatToString(index), " " + NatToString(percent), " " + NatToString(usedMib), " " + NatToString(totalMib)];
    GpuLineSplit(index, percent, usedMib, totalMib);
    MapStringsOfFour(Trim, parts[0], parts[1], parts[2], parts[3]);
    TrimOfSpacedDecimal(index);
    TrimOfSpacedDecimal(percent);
    TrimOfSpacedDecimal(usedMib);
    TrimOfSpacedDecimal(totalMib);
  }

  /** A printed line counts as one GPU with its utilisation as a share and
      its memory in KB. */
  lemma GpuLineContribution(index: nat, percent: nat, usedMib: nat, totalMib: nat)
    requires usedMib < U64_LIMIT && totalMib < U64_LIMIT
    ensures Contribution(GpuLine(index, percent, usedMib, totalMib))
            == GpuStats(1, percent as real / 100.0, usedMib * 1024, totalMib * 1024)
  {
    GpuLineFields(index, percent, usedMib, totalMib);
    ParseDecimalOfNat(percent);
    ParseOfNatToString(usedMib, U64_LIMIT);
    ParseOfNatToString(totalMib, U64_LIMIT);
  }

  lemma TotalOfTwo(f: string -> GpuStats, a: string, b: string)
    ensures Total(MapLines(f, [a, b])) == Add(f(a), f(b))
  {
    var xs := MapLines(f, [a, b]);
    assert xs == [f(a), f(b)];
    assert xs[1..] == [f(b)] && xs[1..][1..] == [];
    assert Total(xs[1..]) == Add(f(b), NO_GPUS);
  }

  /** Two printed lines as text are those two lines. */
  lemma GpuLinesAsText(a: string, b: string)
    requires '\n' !in a && '\n' !in b && a != [] && b != []
    requires IsDigit(a[|a| - 1]) && IsDigit(b[|b| - 1])
    ensures GetGpuStats(Ok(a + "\n" + b)) == Ok(Aggregate([a, b]))
  {
    TwoLines(a, b);
  }

  /** Two lines aggregate to the sum of what each adds. */
  lemma AggregateOfTwo(a: string, b: string)
    ensures Aggregate([a, b]) == Add(Contribution(a), Contribution(b))
  {
    TotalOfTwo(Contribution, a, b);
  }

  /** The figures of two GPUs, added. */
  lemma AddTwoGpus(x: GpuStats, y: GpuStats, p1: nat, u1: nat, t1: nat, p2: nat, u2: nat, t2: nat)
    requires x == GpuStats(1, p1 as real / 100.0, u1 * 1024, t1 * 1024)
    requires y == GpuStats(1, p2 as real / 100.0, u2 * 1024, t2 * 1024)
    ensures Add(x, y) == GpuStats(2, p1 as real / 100.0 + p2 as real / 100.0, (u1 + u2) * 1024, (t1 + t2) * 1024)
  {
  }

  /** Two well-formed lines: two GPUs, their shares and memory added up. */
  lemma AggregateOfTwoGpus(i1: nat, p1: nat, u1: nat, t1: nat, i2: nat, p2: nat, u2: nat, t2: nat)
    requires u1 < U64_LIMIT && t1 < U64_LIMIT && u2 < U64_LIMIT && t2 < U64_LIMIT
    ensures Aggregate([GpuLine(i1, p1, u1, t1), GpuLine(i2, p2, u2, t2)])
            == GpuStats(2, p1 as real / 100.0 + p2 as real / 100.0, (u1 + u2) * 1024, (t1 + t2) * 1024)
  {
    var a, b := GpuLine(i1, p1, u1, t1), GpuLine(i2, p2, u2, t2);
    AggregateOfTwo(a, b);
    GpuLineContribution(i1, p1, u1, t1);
    GpuLineContribution(i2, p2, u2, t2);
    AddTwoGpus(Contribution(a), Contribution(b), p1, u1, t1, p2, u2, t2);
  }

  /** Two printed lines: two GPUs, their shares and memory added up. */
  lemma TwoGpuLines(i1: nat, p1: nat, u1: nat, t1: nat, i2: nat, p2: nat, u2: nat, t2: nat)
    requires u1 < U64_LIMIT && t1 < U64_LIMIT && u2 < U64_LIMIT && t2 < U64_LIMIT
    ensures GetGpuStats(Ok(GpuLine(i1, p1, u1, t1) + "\n" + GpuLine(i2, p2, u2, t2)))
            == Ok(GpuStats(2, p1 as real / 100.0 + p2 as real / 100.0, (u1 + u2) * 1024, (t1 + t2) * 1024))
  {
    GpuLineShape(i1, p1, u1, t1);
    GpuLineShape(i2, p2, u2, t2);
    GpuLinesAsText(GpuLine(i1, p1, u1, t1), GpuLine(i2, p2, u2, t2));
    AggregateOfTwoGpus(i1, p1, u1, t1, i2, p2, u2, t2);
  }

  /** Two GPUs at 75% and 50% with 8000 of 16000 and 4000 of 16000 MiB
      used: 1.25 GPUs busy, 12288000 of 32768000 KB used. */
  lemma TwoGpus()
    ensures GetGpuStats(Ok(GpuLine(0, 75, 8000, 16000) + "\n" + GpuLine(1, 50, 4000, 16000)))
            == Ok(GpuStats(2, 1.25, 12288000, 32768000))
  {
    TwoGpuLines(0, 75, 8000, 16000, 1, 50, 4000, 16000);
  }

  /** A line with the total memory missing. */
  function TruncatedLine(index: nat, percent: nat, usedMib: nat): string {
    Join([NatToString(index), " " + NatToString(percent), " " + NatToString(usedMib)], ',')
  }

  lemma TruncatedLineSplit(index: nat, percent: nat, usedMib: nat)
    ensures |Split(TruncatedLine(index, percent, usedMib), ',')| == 3
  {
    DecimalHasNoSeparator(index);
    DecimalHasNoSeparator(percent);
    DecimalHasNoSeparator(usedMib);
    SplitOfJoin([NatToString(index), " " + NatToString(percent), " " + NatToString(usedMib)], ',');
  }

  lemma TruncatedLineShape(index: nat, percent: nat, usedMib: nat)
    ensures '\n' !in TruncatedLine(index, percent, usedMib)
    ensures TruncatedLine(index, percent, usedMib) != []
    ensures IsDigit(TruncatedLine(index, percent, usedMib)[|TruncatedLine(index, percent, usedMib)| - 1])
  {
    var a, b, c := NatToString(index), " " + NatToString(percent), " " + NatToString(usedMib);
    DecimalHasNoSeparator(index);
    DecimalHasNoSeparator(percent);
    DecimalHasNoSeparator(usedMib);
    assert [b, c][1..] == [c];
    assert Join([b, c], ',') == b + [','] + c;
    assert [a, b, c][1..] == [b, c];
    var line := a + [','] + (b + [','] + c);
    assert TruncatedLine(index, percent, usedMib) == line;
    assert line[|line| - 1] == c[|c| - 1] == NatToString(usedMib)[|NatToString(usedMib)| - 1];
  }

  /** A well-formed line and a truncated one: only the first GPU counts. */
  lemma AggregateOfTruncated(i1: nat, p1: nat, u1: nat, t1: nat, i2: nat, p2: nat, u2: nat)
    requires u1 < U64_LIMIT && t1 < U64_LIMIT
    ensures Aggregate([GpuLine(i1, p1, u1, t1), TruncatedLine(i2, p2, u2)])
            == GpuStats(1, p1 as real / 100.0, u1 * 1024, t1 * 1024)
  {
    var a, b := GpuLine(i1, p1, u1, t1), TruncatedLine(i2, p2, u2);
    AggregateOfTwo(a, b);
    TruncatedLineAddsNothing(i2, p2, u2);
    GpuLineContribution(i1, p1, u1, t1);
    AddNoGpus(Contribution(a));
  }

  /** A truncated line has three fields, so it adds nothing. */
  lemma TruncatedLineAddsNothing(index: nat, percent: nat, usedMib: nat)
    ensures Contribution(TruncatedLine(index, percent, usedMib)) == NO_GPUS
  {
    TruncatedLineSplit(index, percent, usedMib);
  }

  lemma AddNoGpus(x: GpuStats)
    ensures Add(x, NO_GPUS) == x
  {
  }

  /** A truncated second line is skipped: only the first GPU counts. */
  lemma TruncatedSecondLine(i1: nat, p1: nat, u1: nat, t1: nat, i2: nat, p2: nat, u2: nat)
    requires u1 < U64_LIMIT && t1 < U64_LIMIT
    ensures GetGpuStats(Ok(GpuLine(i1, p1, u1, t1) + "\n" + TruncatedLine(i2, p2, u2)))
            == Ok(GpuStats(1, p1 as real / 100.0, u1 * 1024, t1 * 1024))
  {
    GpuLineShape(i1, p1, u1, t1);
    TruncatedLineShape(i2, p2, u2);
    GpuLinesAsText(GpuLine(i1, p1, u1, t1), TruncatedLine(i2, p2, u2));
    AggregateOfTruncated(i1, p1, u1, t1, i2, p2, u2);
  }

  /** The same GPU with a line cut short after it: 0.75 busy, 8192000 of
      16384000 KB used. */
  lemma TruncatedLineSkipped()
    ensures GetGpuStats(Ok(GpuLine(0, 75, 8000, 16000) + "\n" + TruncatedLine(1, 50, 4000)))
            == Ok(GpuStats(1, 0.75, 8192000, 16384000))
  {
    TruncatedSecondLine(0, 75, 8000, 16000, 1, 50, 4000);
  }

  /** Two printed lines separated by a newline are two lines. */
  lemma TwoLines(a: string, b: string)
    requires '\n' !in a && '\n' !in b && b != []
    requires a == [] || a[|a| - 1] != '\r'
    requires b[|b| - 1] != '\r'
    ensures Lines(a + "\n" + b) == [a, b]
  {
    LinesOfJoin([a, b]);
    assert Join([a, b], '\n') == a + "\n" + b;
  }
}
