/** The stats files the agent keeps on disk: a fresh entry's defaults, the
    name its file is written under, and which old files are removed so that
    at most `max_entries` remain. */
module Store {
  import opened Results
  import opened Numbers
  import Text

  const FILE_PREFIX := "stats-"
  const FILE_SUFFIX := ".json"

  /** A sample as written to disk; a `None` field is left out of the JSON. */
  datatype StatsEntry = StatsEntry(
    time: real,
    numCpus: Option<real>,
    cpuUsage: Option<real>,
    memoryUsageKb: Option<nat>,
    memoryTotalKb: Option<nat>,
    numGpus: Option<nat>,
    gpuUsage: Option<real>,
    gpuMemoryUsageKb: Option<nat>,
    gpuMemoryTotalKb: Option<nat>)

  predicate NoMetrics(e: StatsEntry) {
    && e.numCpus.None? && e.cpuUsage.None? && e.memoryUsageKb.None? && e.memoryTotalKb.None?
    && e.numGpus.None? && e.gpuUsage.None? && e.gpuMemoryUsageKb.None? && e.gpuMemoryTotalKb.None?
  }

  /** `StatsEntry::new`, given the wall clock in seconds since the Unix
      epoch: a clock before the epoch reads as time zero. */
  function NewEntry(clockSeconds: real): (e: StatsEntry)
    ensures NoMetrics(e)
    ensures e.time >= 0.0
    ensures clockSeconds >= 0.0 ==> e.time == clockSeconds
  {
    StatsEntry(if clockSeconds >= 0.0 then clockSeconds else 0.0, None, None, None, None, None, None, None, None)
  }

  /** `(time * 1000.0) as u64`: toward zero, negative values to zero and
      values past the range to the largest `u64`. */
  function TimestampMs(time: real): (ms: nat)
    ensures ms < U64_LIMIT
    ensures 0.0 <= time * 1000.0 < U64_LIMIT as real ==> ms as real <= time * 1000.0 < (ms + 1) as real
    ensures time <= 0.0 ==> ms == 0
  {
    var scaled := time * 1000.0;
    if scaled < 0.0 then 0
    else if scaled.Floor >= U64_LIMIT then U64_LIMIT - 1
    else scaled.Floor
  }

  /** The name `write_stats_entry` gives an entry's file. */
  function EntryFileName(e: StatsEntry): string {
    FILE_PREFIX + NatToString(TimestampMs(e.time)) + FILE_SUFFIX
  }

  predicate EndsWith(s: string, suffix: string) {
    |suffix| <= |s| && s[|s| - |suffix|..] == suffix
  }

  /** A directory entry as `read_dir` lists it: its file name, and whether
      the path is a regular file (after following links). */
  datatype DirEntry = DirEntry(name: string, isFile: bool)

  /** `Path::extension() == Some("json")`: the name ends in `.json` and the
      dot is not the name's first character. */
  predicate HasJsonExtension(name: string) {
    EndsWith(name, FILE_SUFFIX) && |name| > |FILE_SUFFIX|
  }

  /** The filter of `clean_up_old_stats_entries`. */
  predicate IsCandidate(d: DirEntry) {
    d.isFile && HasJsonExtension(d.name) && Text.StartsWith(d.name, FILE_PREFIX)
  }

  /** Every file the agent writes is itself an eviction candidate. */
  lemma WrittenFileIsCandidate(e: StatsEntry)
    ensures IsCandidate(DirEntry(EntryFileName(e), true))
  {
    var digits := NatToString(TimestampMs(e.time));
    var name := EntryFileName(e);
    assert name[..|FILE_PREFIX|] == FILE_PREFIX;
    assert name[|name| - |FILE_SUFFIX|..] == FILE_SUFFIX;
  }

  /** An entry taken 1.5 s after the epoch is written as `stats-1500.json`;
      one from a clock set before the epoch as `stats-0.json`. */
  lemma EntryFileNames()
    ensures EntryFileName(NewEntry(1.5)) == "stats-1500.json"
    ensures EntryFileName(NewEntry(-2.0)) == "stats-0.json"
  {
    assert TimestampMs(1.5) == 1500;
    assert NatToString(1500) == "1500";
    assert NatToString(0) == "0";
  }

  /** The candidates' names, in listing order; unreadable listing entries
      are skipped. */
  function Candidates(listing: seq<Result<DirEntry>>): (names: seq<string>)
    ensures |names| <= |listing|
    ensures forall n :: n in names ==> exists i :: 0 <= i < |listing| && listing[i] == Ok(DirEntry(n, true)) && IsCandidate(listing[i].value)
    ensures forall i :: 0 <= i < |listing| && listing[i].Ok? && IsCandidate(listing[i].value) ==> listing[i].value.name in names
  {
    if listing == [] then []
    else
      var rest := Candidates(listing[1..]);
      assert forall i :: 0 <= i < |listing[1..]| ==> listing[1..][i] == listing[i + 1];
      if listing[0].Ok? && IsCandidate(listing[0].value) then [listing[0].value.name] + rest else rest
  }

  // ------------------------------------------------ ordering of names

  /** The order `sort` puts the paths in: they share the directory, so
      file names are compared character by character, a proper prefix
      first. */
  predicate NameLe(a: string, b: string) {
    a == [] || (b != [] && (a[0] < b[0] || (a[0] == b[0] && NameLe(a[1..], b[1..]))))
  }

  lemma {:induction false} NameLeTotal(a: string, b: string)
    ensures NameLe(a, b) || NameLe(b, a)
  {
    if a != [] && b != [] && a[0] == b[0] {
      NameLeTotal(a[1..], b[1..]);
    }
  }

  lemma {:induction false} NameLeTransitive(a: string, b: string, c: string)
    requires NameLe(a, b) && NameLe(b, c)
    ensures NameLe(a, c)
  {
    if a != [] && b != [] && c != [] && a[0] == b[0] && b[0] == c[0] {
      NameLeTransitive(a[1..], b[1..], c[1..]);
    }
  }

  lemma {:induction false} NameLeAntisymmetric(a: string, b: string)
    requires NameLe(a, b) && NameLe(b, a)
    ensures a == b
  {
    if a != [] && b != [] {
      NameLeAntisymmetric(a[1..], b[1..]);
      assert a == [a[0]] + a[1..];
      assert b == [b[0]] + b[1..];
    }
  }

  predicate Sorted(s: seq<string>) {
    forall i, j :: 0 <= i < j < |s| ==> NameLe(s[i], s[j])
  }

  /** Put `x` into its place in a sorted sequence. */
  function Insert(x: string, s: seq<string>): (r: seq<string>)
    requires Sorted(s)
    ensures Sorted(r)
    ensures multiset(r) == multiset(s) + multiset{x}
  {
    if s == [] then [x]
    else if NameLe(x, s[0]) then
      InsertFrontSorted(x, s);
      [x] + s
    else
      var rest := Insert(x, s[1..]);
      NameLeTotal(x, s[0]);
      InsertBehindSorted(s[0], rest, x, s[1..]);
      assert s == [s[0]] + s[1..];
      [s[0]] + rest
  }

  lemma InsertFrontSorted(x: string, s: seq<string>)
    requires Sorted(s) && s != [] && NameLe(x, s[0])
    ensures Sorted([x] + s)
  {
    var r := [x] + s;
    forall i, j | 0 <= i < j < |r| ensures NameLe(r[i], r[j]) {
      if i == 0 && j > 1 {
        NameLeTransitive(x, s[0], s[j - 1]);
      }
    }
  }

  lemma InsertBehindSorted(h: string, rest: seq<string>, x: string, tail: seq<string>)
    requires Sorted([h] + tail) && Sorted(rest) && NameLe(h, x)
    requires multiset(rest) == multiset(tail) + multiset{x}
    ensures Sorted([h] + rest)
  {
    var r := [h] + rest;
    forall j | 0 <= j < |rest| ensures NameLe(h, rest[j]) {
      assert rest[j] in multiset(rest);
      if rest[j] != x {
        assert rest[j] in multiset(tail);
        var k :| 0 <= k < |tail| && tail[k] == rest[j];
        assert ([h] + tail)[0] == h && ([h] + tail)[k + 1] == tail[k];
        assert NameLe(([h] + tail)[0], ([h] + tail)[k + 1]);
      }
    }
    forall i, j | 0 <= i < j < |r| ensures NameLe(r[i], r[j]) {
      if i > 0 {
        assert r[i] == rest[i - 1] && r[j] == rest[j - 1];
      } else {
        assert r[j] == rest[j - 1];
      }
    }
  }

  /** Insertion sort: the paths in the order `entries.sort()` leaves them. */
  function SortNames(s: seq<string>): (r: seq<string>)
    ensures Sorted(r)
    ensures multiset(r) == multiset(s)
  {
    if s == [] then []
    else
      assert s == [s[0]] + s[1..];
      Insert(s[0], SortNames(s[1..]))
  }

  // ------------------------------------------------ choosing the victims

  /** The eviction plan: the names removed and the names kept. */
  datatype Plan = Plan(removed: seq<string>, kept: seq<string>)

  /** `clean_up_old_stats_entries` over the candidates' names: nothing
      when at most `maxEntries` exist; otherwise the `len - maxEntries`
      smallest names in sort order. */
  function PlanCleanUp(names: seq<string>, maxEntries: nat): (p: Plan)
    ensures multiset(p.removed) + multiset(p.kept) == multiset(names)
    ensures |p.removed| == (if |names| <= maxEntries then 0 else |names| - maxEntries)
    ensures |p.kept| == (if |names| <= maxEntries then |names| else maxEntries)
    ensures forall i, j :: 0 <= i < |p.removed| && 0 <= j < |p.kept| ==> NameLe(p.removed[i], p.kept[j])
    ensures Sorted(p.removed)
  {
    if |names| <= maxEntries then Plan([], names)
    else
      var sorted := SortNames(names);
      var cut := |names| - maxEntries;
      SplitSorted(sorted, cut);
      Plan(sorted[..cut], sorted[cut..])
  }

  /** Cutting a sorted sequence in two: both halves are sorted, every name
      of the front half sorts before every name of the back half, and the
      halves together hold the same names. */
  lemma SplitSorted(s: seq<string>, cut: nat)
    requires Sorted(s) && cut <= |s|
    ensures Sorted(s[..cut])
    ensures forall i, j :: 0 <= i < |s[..cut]| && 0 <= j < |s[cut..]| ==> NameLe(s[..cut][i], s[cut..][j])
    ensures multiset(s[..cut]) + multiset(s[cut..]) == multiset(s)
  {
    assert s == s[..cut] + s[cut..];
    forall i, j | 0 <= i < |s[..cut]| && 0 <= j < |s[cut..]|
      ensures NameLe(s[..cut][i], s[cut..][j])
    {
      assert s[..cut][i] == s[i] && s[cut..][j] == s[cut + j];
    }
  }

  /** The file just written, named after the newest time and listed once,
      outlives the clean-up whenever at least one entry is kept. */
  lemma NewestFileSurvives(names: seq<string>, maxEntries: nat, newest: string)
    requires multiset(names)[newest] == 1 && maxEntries > 0
    requires forall n :: n in names && n != newest ==> NameLe(n, newest)
    ensures newest in PlanCleanUp(names, maxEntries).kept
    ensures newest !in PlanCleanUp(names, maxEntries).removed
  {
    var p := PlanCleanUp(names, maxEntries);
    assert newest in multiset(p.removed) + multiset(p.kept);
    if newest in p.removed {
      var i :| 0 <= i < |p.removed| && p.removed[i] == newest;
      var k := p.kept[0];
      assert k in multiset(names);
      NameLeTotal(k, newest);
      if k != newest {
        NameLeAntisymmetric(newest, k);
      }
    }
    assert newest in p.kept;
    assert multiset(p.kept)[newest] >= 1;
  }

  /** A shared prefix does not change how two names compare. */
  lemma {:induction false} NameLeAfterPrefix(p: string, a: string, b: string)
    ensures NameLe(p + a, p + b) <==> NameLe(a, b)
  {
    if p != [] {
      assert (p + a)[0] == p[0] == (p + b)[0];
      assert (p + a)[1..] == p[1..] + a;
      assert (p + b)[1..] == p[1..] + b;
      NameLeAfterPrefix(p[1..], a, b);
    } else {
      assert p + a == a && p + b == b;
    }
  }

  lemma SortTwo(y: string, z: string)
    requires NameLe(y, z)
    ensures SortNames([y, z]) == [y, z]
  {
    assert [z][1..] == [];
    assert SortNames([z]) == [z];
    assert [y, z][1..] == [z];
  }

  /** Three names, listed out of order, sort into ascending order. */
  lemma SortThree(x: string, y: string, z: string)
    requires NameLe(y, z) && !NameLe(x, y) && !NameLe(x, z)
    ensures SortNames([x, y, z]) == [y, z, x]
  {
    SortTwo(y, z);
    assert [x, y, z][1..] == [y, z];
    InsertAfterTwo(x, y, z);
  }

  lemma InsertAfterOne(x: string, z: string)
    requires !NameLe(x, z)
    ensures Insert(x, [z]) == [z, x]
  {
    assert [z][1..] == [];
  }

  lemma InsertAfterTwo(x: string, y: string, z: string)
    requires NameLe(y, z) && !NameLe(x, y) && !NameLe(x, z)
    ensures Insert(x, [y, z]) == [y, z, x]
  {
    assert [y, z][1..] == [z];
    InsertAfterOne(x, z);
  }

  /** With room for two of three names, the smallest goes. */
  lemma PlanOfThree(x: string, y: string, z: string)
    requires NameLe(y, z) && !NameLe(x, y) && !NameLe(x, z)
    ensures PlanCleanUp([x, y, z], 2) == Plan([y], [z, x])
  {
    SortThree(x, y, z);
    assert [y, z, x][..1] == [y] && [y, z, x][1..] == [z, x];
  }

  /** Three files and room for two: the oldest name goes. */
  lemma OldestOfThreeRemoved()
    ensures PlanCleanUp(["stats-3.json", "stats-1.json", "stats-2.json"], 2)
            == Plan(["stats-1.json"], ["stats-2.json", "stats-3.json"])
  {
    var one, two, three := "stats-1.json", "stats-2.json", "stats-3.json";
    assert one == FILE_PREFIX + "1.json" && two == FILE_PREFIX + "2.json" && three == FILE_PREFIX + "3.json";
    NameLeAfterPrefix(FILE_PREFIX, "1.json", "2.json");
    NameLeAfterPrefix(FILE_PREFIX, "3.json", "1.json");
    NameLeAfterPrefix(FILE_PREFIX, "3.json", "2.json");
    assert NameLe("1.json", "2.json") && !NameLe("3.json", "1.json") && !NameLe("3.json", "2.json");
    PlanOfThree(three, one, two);
  }

  /** The names whose removal went through. */
  function Removed(names: seq<string>, removeSucceeds: string -> bool): (r: seq<string>)
    ensures multiset(r) <= multiset(names)
    ensures forall n :: n in r ==> removeSucceeds(n)
    ensures forall n :: n in names && removeSucceeds(n) ==> n in r
    ensures (forall n :: n in names ==> removeSucceeds(n)) ==> r == names
  {
    if names == [] then []
    else
      assert names == [names[0]] + names[1..];
      var rest := Removed(names[1..], removeSucceeds);
      if removeSucceeds(names[0]) then [names[0]] + rest else rest
  }

  /** The whole clean-up: a listing that could not be read is the error;
      otherwise the removals are attempted one by one and a failed removal
      is only logged, so the result is `Ok` whatever `removeSucceeds`
      says. The value is the names actually removed. */
  function CleanUp(listing: Result<seq<Result<DirEntry>>>, maxEntries: nat, removeSucceeds: string -> bool): (r: Result<seq<string>>)
    ensures r.Err? <==> listing.Err?
    ensures listing.Err? ==> r.error == listing.error
    ensures r.Ok? ==> multiset(r.value) <= multiset(PlanCleanUp(Candidates(listing.value), maxEntries).removed)
    ensures r.Ok? ==> forall n :: n in PlanCleanUp(Candidates(listing.value), maxEntries).removed ==>
                         (n in r.value <==> removeSucceeds(n))
    ensures r.Ok? && (forall n :: n in Candidates(listing.value) ==> removeSucceeds(n)) ==>
              |multiset(Candidates(listing.value)) - multiset(r.value)| <= maxEntries
  {
    match listing
    case Err(e) => Err(e)
    case Ok(entries) =>
      var names := Candidates(entries);
      var plan := PlanCleanUp(names, maxEntries);
      var removed := Removed(plan.removed, removeSucceeds);
      if forall n :: n in names ==> removeSucceeds(n) then
        AllRemovedLeaveKept(names, plan, removeSucceeds);
        Ok(removed)
      else Ok(removed)
  }

  /** When every planned removal goes through, what is left of the
      candidates is the plan's kept names, at most `maxEntries` of them. */
  lemma AllRemovedLeaveKept(names: seq<string>, plan: Plan, removeSucceeds: string -> bool)
    requires multiset(plan.removed) + multiset(plan.kept) == multiset(names)
    requires forall n :: n in names ==> removeSucceeds(n)
    ensures Removed(plan.removed, removeSucceeds) == plan.removed
    ensures multiset(names) - multiset(plan.removed) == multiset(plan.kept)
  {
    forall n | n in plan.removed ensures removeSucceeds(n) {
      assert n in multiset(names);
    }
  }
}
